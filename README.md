# FTIR_Processor: a verified model of the quantification core

FTIR_Processor is a desktop tool for infrared spectra. A user loads a
spectrum, which is a column of wavenumbers `x` and a column of absorbances `y`.
They then smooth it inside chosen wavenumber ranges, subtract a fitted
baseline, find peaks and quantify single peaks by height and area. A batch
processor repeats the configured steps over many files, and configurations
are saved to and loaded from JSON files.

This Dafny project models the logic of that tool, separated from its widgets:

| file | module | models |
|---|---|---|
| common.dfy | Common | Option/Result, samples that may be NaN or infinite, JSON values and Python truthiness |
| masking.dfy | Masking | NumPy window masks `(x >= lo) & (x <= hi)`, selection `a[mask]` and masked assignment `a[mask] = v` (also in place on an array) |
| decimal_text.dfy | DecimalText | Python's `f"{v:.2f}"` (round half to even) and `float` on that text, with the round trip proved |
| validation.dfy | Validation | the shared parameter validators |
| peak_analyzer.dfy | PeakAnalysis | `analyze_peak` (window, nearest sample, two-point baseline, heights, trapezoid areas) and the `PeakAnalyzer` object with `find_peaks_auto` |
| smoothing.dfy | Smoothing | the smoothing dispatcher, its per-filter guards and `smooth_data_in_ranges` |
| baseline.dfy | Baseline | the baseline dispatcher with its defaults, guards and `corrected = y - baseline` |
| data_manager.dfy | DataStore | the `DataManager` store of x, y, smoothed and corrected data |
| smooth_ranges.dfy | SmoothRanges | the list of smoothing ranges kept as two-decimal text: entering, reading back, merging, dragging, deleting |
| peak_registry.dfy | PeakRegistry | the exactly-one-peak gate, adding an analysed peak, and the two deletions with their 0.01 tolerance |
| zoom_history.dfy | ZoomHistory | the bounded zoom history with its cursor |
| batch.dfy | Batch | `BatchProcessor`: per-file failure isolation, step and source selection, saved-file list, summary |
| config.dfy | Config | the configuration envelope and `ProcessingPipeline` |

Numbers are `real`. NaN and infinity are separate sample kinds, which only
the data checks inspect. The library routines are parameters of the model:
the five smoothing filters, the five baseline fitters, scipy's `find_peaks`,
and the batch processing functions. Each one returns its output, or
nothing when it raises. A filter or fitter output whose length differs from
its input counts as a failure. Clocks are parameters too: the summary
timestamp and the envelope's creation time. File reading is a parameter
as well: a read table, or the reader's error.

State is modelled where the source keeps it:

- `DataManager`, `PeakAnalyzer`, the range list box and its highlight, the
  result table with `analyzed_ranges`, the zoom history, `BatchProcessor`
  and `ProcessingPipeline` are classes.
- Each method is proved against a function of its inputs and its old state.
- The properties are lemmas about those functions.

## Model

| member | source | states |
|---|---|---|
| Common.Values | src/data_manager.py:62-63 | the reals of an all-finite column, position by position |
| Common.Diff | src/baseline_corrector.py:79-85 | `a - b` elementwise, same length |
| Common.Zeros | src/baseline_corrector.py:241 | `np.zeros_like`: n zeros |
| Common.Min | src/data_manager.py:267-269 | an element of the sequence no larger than any element |
| Common.Max | src/data_manager.py:267-269 | an element of the sequence no smaller than any element |
| Masking.WindowMask | src/peak_analyzer.py:125 | one flag per sample |
| Masking.Select | src/peak_analyzer.py:126-127 | `s[mask]` has one element per set flag |
| Masking.SelectAt | src/smoothing_processor.py:302-303 | a selected sample lands at its rank in the selection, so the selection keeps the original order |
| Masking.SelectFrom | src/peak_analyzer.py:126-127 | every element of a selection comes from a selected position |
| Masking.WindowSelectBounds | src/peak_analyzer.py:125-127 | every selected x lies inside [lo, hi] |
| Masking.MaskAssignAt | src/smoothing_processor.py:333 | after `a[mask] = vals`, a masked position holds the value of its rank and every other position is unchanged |
| Masking.AssignMasked | src/smoothing_processor.py:333 | the in-place masked assignment on an array equals the value-level `MaskAssign` |
| Masking.WindowAll | src/smoothing_processor.py:289-301 | a window from the smallest to the largest x selects every sample |
| Masking.SelectAll | src/smoothing_processor.py:302-303 | a mask selecting everything selects the whole series |
| Masking.MaskAssignAll | src/smoothing_processor.py:333 | assigning through a mask selecting everything replaces the whole series |
| Masking.CountAtLeastTwo | src/peak_analyzer.py:129-138 | two distinct selected positions mean at least two samples |
| Masking.CountWitness | src/peak_analyzer.py:129-132 | a nonzero count has a selected position behind it |
| DecimalText.RoundHalfEven | FTIR_Processor.py:1181 | the nearest integer, within one half |
| DecimalText.Round2Close | FTIR_Processor.py:1181 | `:.2f` moves a value by at most 0.005 |
| DecimalText.Round2Idempotent | FTIR_Processor.py:1181 | a rounded value is a whole number of hundredths |
| DecimalText.Round2OfCents | FTIR_Processor.py:1181 | a value with exact hundredths is unchanged by rounding |
| DecimalText.Round2Monotone | FTIR_Processor.py:1181 | rounding preserves order |
| DecimalText.FormatNoSpace | FTIR_Processor.py:1181 | the formatted number contains no space |
| DecimalText.DigitsRoundTrip | FTIR_Processor.py:1598 | the digits written for n read back as n |
| DecimalText.FormatParse | FTIR_Processor.py:1598 | `float(f"{v:.2f}")` is v rounded to two decimals |
| DecimalText.FormatParseCents | FTIR_Processor.py:1598 | text written from an exact two-decimal value reads back as that value |
| Validation.ValidatePositiveInt | src/smoothing_processor.py:58-72 | accepts exactly value >= min; the violation names value and bound |
| Validation.ValidatePositiveFloat | src/smoothing_processor.py:75-89 | accepts exactly value > min |
| Validation.ValidateRange | src/smoothing_processor.py:92-107 | accepts exactly lo <= value <= hi |
| PeakAnalysis.NearestIndex | src/peak_analyzer.py:141-143 | `argmin(abs(xs - p))`: a nearest sample, and the first of the nearest ones |
| PeakAnalysis.TwoPointBaseline | src/peak_analyzer.py:145-153 | the baseline has one point per window sample |
| PeakAnalysis.Line | src/peak_analyzer.py:153 | `m * x + c` has one value per x |
| PeakAnalysis.TrapezoidDiff | src/peak_analyzer.py:166 | the trapezoid rule is linear: the area of y - b is area(y) - area(b) |
| PeakAnalysis.TrapezoidLine | src/peak_analyzer.py:165-166 | the trapezoid rule integrates a straight line exactly, for any sample order |
| PeakAnalysis.SlopeSpan | src/peak_analyzer.py:147-152 | with a span of at least 1e-10 the baseline passes through both end samples |
| PeakAnalysis.ChordArea | src/peak_analyzer.py:165-166 | the area under a line through two end points is the chord area, whatever samples lie between |
| PeakAnalysis.QuantifyPosition | src/peak_analyzer.py:141-160 | the reported wavenumber and heights are those of a window sample that is nearest the requested peak and the first of the nearest ones |
| PeakAnalysis.CorrectedHeightAt | src/peak_analyzer.py:147-160 | the corrected height at a sample is its y minus the baseline line through the first sample with the window slope (0 over a span below 1e-10) |
| PeakAnalysis.NearestUnique | src/peak_analyzer.py:141 | only one index is both nearest and first of the nearest, so `argmin` picks a determined sample |
| PeakAnalysis.BaselineArea | src/peak_analyzer.py:147-153 | the area under the two-point baseline is the chord area, or first y times span when the slope is forced to 0 |
| PeakAnalysis.SlopedBaselineArea | src/peak_analyzer.py:150-153 | over a span of at least 1e-10 the baseline area is the chord area between the end samples |
| PeakAnalysis.FlatBaselineArea | src/peak_analyzer.py:148-153 | over a span below 1e-10 the baseline area is the first y times the span |
| PeakAnalysis.QuantifyAreas | src/peak_analyzer.py:164-169 | raw area = trapezoid(y, x) over the window; corrected = raw minus the baseline area |
| PeakAnalysis.AnalyzeRejectsUnorderedLimits | src/peak_analyzer.py:119-122 | lower >= upper is rejected whatever the data |
| PeakAnalysis.AnalyzeSucceedsIff | src/peak_analyzer.py:119-138 | success iff limits ordered, x and y the same length and at least two window samples; 0 and 1 samples give their own errors |
| PeakAnalysis.AnalyzePeakInWindow | src/peak_analyzer.py:141-193 | on success the wavenumber is a window sample in [lower, upper], the limits are echoed, and heights and areas are those of the window |
| PeakAnalysis.BaselineArgumentIgnored | src/peak_analyzer.py:172-193 | a baseline array as long as x never changes the result; one of another length makes the analysis fail |
| PeakAnalysis.TriangleExample | src/peak_analyzer.py:98-196 | the symmetric triangle of height 10 on 0..4 has heights 10 and areas 10 |
| PeakAnalysis.TriangleWindow | src/peak_analyzer.py:141-169 | the same numbers for the window quantities |
| PeakAnalysis.SlopedBaselineExample | src/peak_analyzer.py:145-169 | a sloped baseline at 5 under a peak of 20 gives corrected height 15 |
| PeakAnalysis.PeakAnalyzer.constructor | src/peak_analyzer.py:27-31 | no peaks and no properties |
| PeakAnalysis.PeakAnalyzer.FindPeaksAuto | src/peak_analyzer.py:33-96 | empty data, threshold < 0 and min_distance < 1 fail in that order with an empty list and no state change; otherwise the detector's indices are stored and the list holds (x[i], y[i]) in index order |
| PeakAnalysis.PeakAnalyzer.GetPeakCount | src/peak_analyzer.py:257-264 | the number of stored peaks |
| PeakAnalysis.PeakAnalyzer.ClearPeaks | src/peak_analyzer.py:266-270 | no peaks and no properties afterwards |
| Smoothing.ValidateSavgolParams | src/smoothing_processor.py:34-55 | accepts iff the window is odd, at most n and above polyorder; an even window is reported first |
| Smoothing.SmoothWindowSpec | src/smoothing_processor.py:109-269 | one window is smoothed iff the method is one of the five, its parameters are present and in their domains (LOWESS frac in [0, 1] and iterations >= 1, windows in [1, n], sigma > 0), and the filter does not raise; an unknown name is reported as such |
| Smoothing.RangeMask | src/smoothing_processor.py:301 | one flag per sample |
| Smoothing.SmoothDataInRanges | src/smoothing_processor.py:271-341 | the copy-then-overwrite loop computes `SmoothInRanges`; on failure y comes back unchanged |
| Smoothing.SmoothFromLength | src/smoothing_processor.py:296-333 | a successful run keeps the length of y |
| Smoothing.SmoothFromAt | src/smoothing_processor.py:299-333 | a sample outside every range keeps its value; a covered sample takes the value the last covering range computed from the original y |
| Smoothing.UnknownMethodOnlyOnData | src/smoothing_processor.py:306-308 | an unknown method name is reported only once a range holds samples; all-empty ranges succeed |
| Smoothing.DefaultRangeIsWholeSpectrum | src/smoothing_processor.py:289-290 | no ranges means one window [min x, max x], so the filter applies to all of y |
| Smoothing.SmoothInRangesLength | src/smoothing_processor.py:296-336 | success keeps the length of y; x and y of different lengths always fail |
| Baseline.CorrectBaselineSpec | src/baseline_corrector.py:222-274 | success iff y is non-empty and finite, the method is known, its parameters (defaults: poly_order 2, max_iter 50, lam 1e6, p 0.01, num_knots 10) are in their domains and the fitter returns a baseline as long as y; the result is then y minus that baseline |
| Baseline.CorrectBaselineReconstructs | src/baseline_corrector.py:79-85 | on success corrected + baseline = y sample by sample; on failure y unchanged with an all-zero baseline |
| Baseline.NonFiniteRejected | src/baseline_corrector.py:243-246 | a NaN or infinity anywhere is rejected before dispatch |
| DataStore.ValidateData | src/data_manager.py:105-128 | accepts iff both columns are finite; a NaN anywhere is reported in preference to an infinity |
| DataStore.DataManager.constructor | src/data_manager.py:28-34 | all four fields absent |
| DataStore.DataManager.LoadFromCsv | src/data_manager.py:36-103 | a read error, fewer than two columns or no rows change nothing; invalid values clear x and y only; success takes the first two columns and clears smoothed and corrected |
| DataStore.DataManager.CheckDataLoaded | src/data_manager.py:130-155 | missing x or y first, then missing smoothed or corrected for those names |
| DataStore.DataManager.GetData | src/data_manager.py:157-172 | "smoothed" and "corrected" select their fields; any other name selects y |
| DataStore.DataManager.SetSmoothedData | src/data_manager.py:174-181 | stores the data and changes no other field |
| DataStore.DataManager.SetCorrectedData | src/data_manager.py:184-191 | stores the data and changes no other field |
| DataStore.DataManager.GetDataLength | src/data_manager.py:249-258 | 0 without x, otherwise the length of x, which equals that of y |
| DataStore.DataManager.GetDataRange | src/data_manager.py:260-269 | (0, 0) without x, otherwise the smallest and largest x |
| DataStore.DataManager.ExportTable | src/data_manager.py:194-238 | a failed loaded check is returned as is; on success the rows written are (x[i], data[i]) for the chosen data |
| DataStore.DataManager.ExportSucceedsIff | src/data_manager.py:194-238 | after a passed check the export succeeds iff the chosen data has x's length; otherwise the length mismatch, caught by the general handler, is the error |
| DataStore.DataManager.CheckedDataPresent | src/data_manager.py:194-238 | once the check passes, the chosen data is present |
| SmoothRanges.Normalize | FTIR_Processor.py:1389-1391 | the swap yields start <= end with the same two bounds |
| SmoothRanges.Larger | FTIR_Processor.py:1409 | `max` is one of its arguments and at least both |
| SmoothRanges.Split | FTIR_Processor.py:1598 | `split(" - ")` gives at least one part |
| SmoothRanges.SplitAround | FTIR_Processor.py:1598 | two space-free numbers joined by " - " split back into exactly those two |
| SmoothRanges.ParseFormatRange | FTIR_Processor.py:1594-1598 | reading an entry back gives its bounds rounded to two decimals |
| SmoothRanges.ParseFormatCents | FTIR_Processor.py:1512-1514 | a range of exact two-decimal bounds reads back unchanged |
| SmoothRanges.FormatAllParses | FTIR_Processor.py:1427-1429 | a list written from exact two-decimal ranges reads back unchanged |
| SmoothRanges.SortByLo | FTIR_Processor.py:1383 | a permutation sorted by min(start, end) |
| SmoothRanges.Insert | FTIR_Processor.py:1383 | inserting adds exactly the new element to the multiset and keeps a sorted list sorted |
| SmoothRanges.SortSorted | FTIR_Processor.py:1383 | sorting a sorted list changes nothing (stability) |
| SmoothRanges.SweepSeparated | FTIR_Processor.py:1395-1419 | the merge loop outputs ordered proper ranges more than 5.0 apart |
| SmoothRanges.SweepCovers | FTIR_Processor.py:1395-1419 | every range the loop has seen lies inside one output range |
| SmoothRanges.SweepEnds | FTIR_Processor.py:1395-1419 | every output bound is a bound of an input range |
| SmoothRanges.SweepLength | FTIR_Processor.py:1393-1419 | the loop reports a merge iff its output is shorter |
| SmoothRanges.SweepOfSeparated | FTIR_Processor.py:1395-1419 | on a separated list the loop absorbs nothing |
| SmoothRanges.MergeSeparates | FTIR_Processor.py:1386-1432 | after a reported merge the list is sorted, proper and more than 5.0 apart |
| SmoothRanges.MergeCovers | FTIR_Processor.py:1386-1434 | every range of the old list lies inside a range of the new list |
| SmoothRanges.MergeEnds | FTIR_Processor.py:1406-1419 | a merge invents no bound |
| SmoothRanges.MergeShortens | FTIR_Processor.py:1422-1434 | a merge is reported iff the list got shorter |
| SmoothRanges.MergeIdempotent | FTIR_Processor.py:1386-1432 | a second merge straight after the first reports nothing |
| SmoothRanges.MergeKeepsCents | FTIR_Processor.py:1427-1429 | merged ranges of exact two-decimal bounds are exact two-decimal ranges |
| SmoothRanges.TrimStart | FTIR_Processor.py:1145 | `lstrip`: a suffix that starts with a non-space, with only spaces removed |
| SmoothRanges.TrimEnd | FTIR_Processor.py:1145 | `rstrip`: a prefix that ends with a non-space, with only spaces removed |
| SmoothRanges.Strip | FTIR_Processor.py:1145-1150 | empty iff the text is all whitespace, otherwise trimmed at both ends |
| SmoothRanges.CheckAccepts | FTIR_Processor.py:1145-1175 | input is accepted iff both fields are non-blank numbers, start < end, data is loaded and both lie within [min x, max x]; the accepted range is the two numbers |
| SmoothRanges.AcceptedReadsBack | FTIR_Processor.py:1181 | the line stored for an accepted range reads back as the range rounded to cents, still ordered |
| SmoothRanges.DragKeepsWidth | FTIR_Processor.py:1496-1512 | a drag moves only the dragged edge, keeps it within the data, and the written range stays at least 1.0 wide |
| SmoothRanges.ParseAllAt | FTIR_Processor.py:1596-1599 | a parsed list holds, at each position, what that line parses to |
| SmoothRanges.ParseAllOfEach | FTIR_Processor.py:1596-1599 | lines that each parse give the list of their values |
| SmoothRanges.ParseAllPrefixFails | FTIR_Processor.py:1596-1599 | a malformed line makes the whole read fail |
| SmoothRanges.ParseAllUpdate | FTIR_Processor.py:1513-1514 | replacing one line replaces one parsed range |
| SmoothRanges.ParseAllRemove | FTIR_Processor.py:1215 | removing one line removes one parsed range |
| SmoothRanges.RangeList.constructor | FTIR_Processor.py:1233-1236 | no lines and no highlight |
| SmoothRanges.RangeList.GetSelectedRanges | FTIR_Processor.py:1593-1600 | the lines parsed in order; a well-formed box always parses |
| SmoothRanges.SweepSorted | FTIR_Processor.py:1386-1419 | the merge loop over the sorted ranges yields the merged list and the merge flag of the sweep `Sweep` |
| SmoothRanges.RangeList.MergeOverlapping | FTIR_Processor.py:1368-1434 | the box becomes the merged list exactly when a merge is reported, and is left as it was otherwise |
| SmoothRanges.RangeList.Rewrite | FTIR_Processor.py:1424-1429 | the box holds exactly the formatted ranges |
| SmoothRanges.RangeList.AddRange | FTIR_Processor.py:1142-1208 | rejected input changes nothing; accepted input appends its line, then merges when spectra are loaded |
| SmoothRanges.RangeList.AppendRange | FTIR_Processor.py:1181-1182 | appending the formatted line keeps every line a cents range and adds the rounded range at the end of the parsed list |
| SmoothRanges.RangeList.DragBoundary | FTIR_Processor.py:1482-1515 | an index past the end changes nothing; otherwise only the dragged line is rewritten, to the dragged range |
| SmoothRanges.RangeList.ReleaseDrag | FTIR_Processor.py:1537-1553 | merges and drops the highlight exactly when the list changed |
| SmoothRanges.RangeList.DeleteRange | FTIR_Processor.py:1210-1221 | removes the selected line; the highlight is cleared if it was that line, shifted down if it was below it |
| SmoothRanges.RangeList.DeleteAt | FTIR_Processor.py:1214-1221 | deleting line k removes exactly that line and its parsed range, and moves the highlight with its range |
| SmoothRanges.RangeList.RemoveEntry | FTIR_Processor.py:1215 | removing line k removes its parsed range and leaves the highlight alone |
| SmoothRanges.RangeList.FollowRemoval | FTIR_Processor.py:1218-1221 | the highlight is cleared if it was line k, shifted down if below it, kept otherwise |
| SmoothRanges.RangeList.ClearRanges | FTIR_Processor.py:1233-1236 | no lines and no highlight |
| PeakRegistry.Ordered | FTIR_Processor.py:3538-3539 | the swap puts the bounds in order without changing them |
| PeakRegistry.RangeVerdictExactlyOne | FTIR_Processor.py:3757-3785 | a range passes iff exactly one listed peak lies in it (bounds in either order); "no peak in range" is reported iff the list is non-empty and no listed peak lies in it |
| PeakRegistry.ValidatePeakRange | FTIR_Processor.py:3742-3785 | the counting loop gives that verdict, validity iff no problem, and the count of peaks in range |
| PeakRegistry.FirstFrom | FTIR_Processor.py:3543-3549 | the first listed peak inside [lo, hi], or none |
| PeakRegistry.FindPeakInRange | FTIR_Processor.py:3542-3549 | the search loop returns that first peak and stops there |
| PeakRegistry.PlanPeakSpec | FTIR_Processor.py:3522-3562 | an accepted peak is the only listed one in the range, the stored bounds are ordered, the reported wavenumber lies inside them, and "no peak found" never follows the gate |
| PeakRegistry.CheckAndAnalyse | FTIR_Processor.py:3522-3562 | the blank check, parse, gate, swap, search and analysis in that order compute `PlanPeak` |
| PeakRegistry.RowReadsBack | FTIR_Processor.py:3954-4010 | the bounds written to a table row read back as the bounds rounded to two decimals |
| PeakRegistry.OwnEntryMatches | FTIR_Processor.py:4596-4621 | the row of an analysis matches its own entry within the 0.01 tolerance |
| PeakRegistry.Retain | FTIR_Processor.py:4596-4621 | the rebuilt list holds exactly the kept entries, in order |
| PeakRegistry.FirstRow | FTIR_Processor.py:4781-4795 | the first table row matching number and bounds, or none |
| PeakRegistry.DeleteOwnRecord | FTIR_Processor.py:4566-4656 | deleting the row of an analysis also removes its entry |
| PeakRegistry.Registry.constructor | FTIR_Processor.py:4098-4106 | an empty table and no entries |
| PeakRegistry.Registry.AddPeakToAnalysis | FTIR_Processor.py:3515-3593 | a rejected peak changes nothing; an accepted one appends a row numbered one past the row count and the entry (lower, upper, number, file) |
| PeakRegistry.Registry.RetainAnalyzed | FTIR_Processor.py:4596-4621 | the entry list becomes the kept entries in order; rows unchanged |
| PeakRegistry.Registry.DeleteResultRecord | FTIR_Processor.py:4566-4656 | unconfirmed changes nothing; confirmed removes the row and every entry matching bounds within 0.01, number, and file (a missing file matches any) |
| PeakRegistry.Registry.DeleteAnalyzedRangeFromPlot | FTIR_Processor.py:4741-4830 | unconfirmed changes nothing; confirmed drops the matching entries, then the first matching row only |
| PeakRegistry.Registry.DeleteFirstRow | FTIR_Processor.py:4781-4795 | removes exactly the first matching row, or nothing when none matches |
| PeakRegistry.Registry.ClearResults | FTIR_Processor.py:4098-4106 | an empty table and no entries |
| ZoomHistory.Current | FTIR_Processor.py:4304-4335 | no view exactly when the history is empty |
| ZoomHistory.LastN | FTIR_Processor.py:4274-4276 | the last n elements, in order |
| ZoomHistory.Push | FTIR_Processor.py:4267-4276 | keeps the views up to the cursor, appends, drops the oldest past 50, and puts the cursor on the new view |
| ZoomHistory.StepBack | FTIR_Processor.py:4304-4319 | one step back, never before the first view |
| ZoomHistory.StepForward | FTIR_Processor.py:4321-4335 | one step forward, never past the last view |
| ZoomHistory.PushClearsForward | FTIR_Processor.py:4267-4276 | after adding there is nothing to go forward to, and back is possible iff there was a view |
| ZoomHistory.PushThenBack | FTIR_Processor.py:4267-4319 | adding and stepping back shows the view that was current before |
| ZoomHistory.BackForwardInverse | FTIR_Processor.py:4304-4335 | back then forward, and forward then back, restore the state |
| ZoomHistory.PushKeepsHistory | FTIR_Processor.py:4267-4276 | older views survive an addition, shifted by one once the list is full |
| ZoomHistory.PeakZoomHistory.constructor | FTIR_Processor.py:2425-2426 | an empty history with cursor -1 |
| ZoomHistory.PeakZoomHistory.Seed | FTIR_Processor.py:2777-2779 | the original view is recorded once, into an empty history only |
| ZoomHistory.PeakZoomHistory.Add | FTIR_Processor.py:4264-4284 | the new state is `Push` of the old |
| ZoomHistory.PeakZoomHistory.Back | FTIR_Processor.py:4304-4319 | the new state is `StepBack` of the old; a view is shown iff the cursor moved |
| ZoomHistory.PeakZoomHistory.Forward | FTIR_Processor.py:4321-4335 | the new state is `StepForward` of the old; a view is shown iff the cursor moved |
| ZoomHistory.PeakZoomHistory.Buttons | FTIR_Processor.py:4286-4302 | each button is enabled iff pressing it would change the state |
| Batch.Basename | batch_processor.py:91 | `os.path.basename` with POSIX rules: the suffix after the last '/' |
| Batch.LastDot | batch_processor.py:138 | the last '.' of a name, if any |
| Batch.Stem | batch_processor.py:138 | `splitext(...)[0]` with POSIX rules: a prefix that drops only an extension starting at the last '.' not preceded by dots alone |
| Batch.BaselineInput | batch_processor.py:113-116 | the smoothed series iff "smoothed" is requested and smoothing ran, otherwise raw y |
| Batch.PeakInput | batch_processor.py:125-131 | corrected if requested and present, else smoothed if requested and present, else raw y |
| Batch.SmoothStage | batch_processor.py:103-107 | smoothing runs iff the section asks for it and the function exists; a non-dictionary section fails |
| Batch.BaselineStage | batch_processor.py:110-118 | baseline correction runs iff the section asks for it and the function exists; a non-dictionary section fails |
| Batch.PeakStage | batch_processor.py:122-135 | peak analysis runs iff the section and the function exist |
| Batch.PeaksFound | batch_processor.py:135 | present iff the peak step ran |
| Batch.StepsRun | batch_processor.py:103-134 | steps in the fixed order, each present iff its stage ran |
| Batch.NarrowTableFails | batch_processor.py:82-83 | a table of fewer than two columns is a failure of that file |
| Batch.RunSteps | batch_processor.py:103-134 | recorded steps are a sub-list of smoothing, baseline, peak_analysis in order, each iff its section asks for it and its function exists |
| Batch.RunOutputs | batch_processor.py:135-143 | `peaks_found` iff the peak step ran; the output list starts with the processed file and adds the peaks file iff peaks were found |
| Batch.Attempts | batch_processor.py:50-64 | one outcome per path, in order |
| Batch.OutcomeSnoc | batch_processor.py:58-64 | one more outcome extends exactly one of the two lists |
| Batch.PartitionCount | batch_processor.py:43-64 | successes plus failures number the files |
| Batch.FileOnItsOwn | batch_processor.py:50-64 | without a callback, a file's outcome depends on that file alone |
| Batch.BatchProcessor.constructor | batch_processor.py:16-27 | the configuration and functions are kept; no results and no errors |
| Batch.BatchProcessor.SaveResults | batch_processor.py:147-185 | the list of files written starts with the processed file, then the peaks file when there are peaks |
| Batch.BatchProcessor.BuildResult | batch_processor.py:89-145 | the result record built by appends equals `Record` |
| Batch.BatchProcessor.AppendSteps | batch_processor.py:102-134 | the steps recorded are exactly the steps that ran, in pipeline order |
| Batch.BatchProcessor.ProcessSingleFile | batch_processor.py:69-145 | the step-by-step processing equals `Run` |
| Batch.BatchProcessor.TryFile | batch_processor.py:51-57 | the callback, then the file, inside one try: the file's entry of `Attempts` |
| Batch.BatchProcessor.Keep | batch_processor.py:58-64 | appends to results or to errors, never both |
| Batch.BatchProcessor.GenerateSummary | batch_processor.py:187-203 | total = successful + failed, with the lists as they stand |
| Batch.BatchProcessor.ProcessFiles | batch_processor.py:29-67 | results and errors are the successes and failures of the files in input order; total_files is the number of paths |
| Batch.BatchProcessor.Visit | batch_processor.py:50-64 | after file i, results and errors are the successes and failures of the first i+1 files |
| Config.Envelope | config_manager.py:29-33 | an object with version and config members |
| Config.LoadConfig | config_manager.py:42-64 | the config member when a version member is present (missing config fails), the whole object otherwise; an unreadable file fails |
| Config.SaveThenLoad | config_manager.py:16-64 | loading what was saved gives back the saved settings |
| Config.LegacyFileLoads | config_manager.py:57-61 | a file without a version member is taken as the settings |
| Config.LoadedSettingsAreNotReloaded | config_manager.py:57-61 | settings that themselves hold version and config are unwrapped a second time if loaded again |
| Config.Wants | config_manager.py:237-244 | a step is wanted iff its section is a dictionary with a truthy field; a non-dictionary section fails |
| Config.PipelineStepsSpec | config_manager.py:234-244 | the steps are an ordered sub-list of smoothing, baseline, peak_analysis, each iff its field is truthy; failure iff some section is not a dictionary |
| Config.ProcessingPipeline.constructor | config_manager.py:223-232 | the steps are those the configuration asks for |
| Config.ProcessingPipeline.BuildPipeline | config_manager.py:234-244 | appends exactly the wanted steps in order |
| Config.ProcessingPipeline.GetSteps | config_manager.py:246-248 | the steps the stored configuration asks for |
| Config.ProcessingPipeline.GetConfig | config_manager.py:250-252 | the stored configuration itself, which rebuilds the stored steps |

## Left out

- Reading and writing files is not modelled: CSV through pandas, JSON dump and load, `os.makedirs`, `save_summary` and `ExportManager`. The model receives the read tables or decoded values and returns the values to be written.
- Widgets, plotting, message boxes, logging, clearing input boxes, redraws and live preview are not modelled. They are user interface. Error messages are datatype constructors, not text.
- The smoothing filters, baseline fitters and scipy `find_peaks` are parameters of the model. They are library routines.
- NumPy broadcasting of a length-1 result is not modelled. An output of any other length than its input counts as a failure.
- Python's general `float` parsing is a parameter where user text is read (`add_range`, `add_peak_to_analysis`). Only the two-decimal text the program writes itself is modelled exactly.
- Smoothing.SmoothDataInRanges: NaN in x is not modelled. Such a sample is simply never inside a range.
- DataStore.DataManager.LoadFromCsv: a table whose first two columns are not numeric is not modelled. The code stores such columns in x and y before checking them, the NaN check then raises, and the load fails with x and y still set. The model's columns hold only numbers, NaN or infinity.
- SmoothRanges.Strip: removes ASCII whitespace only, not the other Unicode whitespace Python strips.
- DecimalText.FormatFixed2: reals have no negative zero. Python writes the float `-0.0` as "-0.00", while the model writes 0 as "0.00".
- `create_config_from_gui` and `apply_config_to_gui` are not modelled. They read and write widget variables.
- `reset_zoom_peak` and the view-limit handling of `update_peak_plot` are not modelled. They set axis limits.
- The peak table's other columns and the four-decimal height and area text in the result table are not modelled. The model keeps heights and areas as numbers.
- Batch.Run: assumes processing functions return a value. Their `None` result for smoothing or baseline is not modelled.
- Batch.Run: NaN checks on batch tables are not modelled. Output-file write failures are not modelled.
- Batch.Basename, Batch.Stem and Batch.Join: follow POSIX `os.path` (posixpath) only. On Windows `os.path` is ntpath, which also splits at '\\' and at a drive colon and joins with '\\', so `filename` and `output_files` there can differ from the model.
- Config.ProcessingPipeline.constructor: requires a configuration that `PipelineSteps` accepts. The constructor's exception is modelled by `PipelineSteps` returning an error.
- PeakRegistry.Registry.AddPeakToAnalysis: numbers each new row one past the row count, as the code does. After a deletion a number can therefore repeat, and the model does not prevent it.
- The batch processor runs peak analysis whenever the section exists. The pipeline lists it only when `threshold` is truthy. Both are modelled as written.

# SeedCounter colour-chart and seed pipeline, modelled in Dafny

This project models the computational core of SeedCounter, a Java tool for
measuring seeds on photographs. A photograph holds a 6 x 4 colour chart
(a ColorChecker) beside the seeds. The program:

- locates the chart by feature matching and a homography (`FindColorChecker`),
- places a 3 x 3 sampling stencil on each of the 24 patches and refines it
  (`ColorChecker`: the search towards the reference colour and the search
  that balances the deviation of opposite sides),
- trains a polynomial least-squares colour correction on the patch samples
  and applies it pixel by pixel in a chosen colour space (`regression`),
- binarises and filters seeds, collects their pixels and writes numbered
  seed records (`HSVBinarization`, `SeedUtils`),
- computes background statistics from k-means labels (`Clusterizer`),
- and, in two experiment drivers, maps file names to seed classes and
  decides whether the chart is trusted (`SeedDatasetClustering`), and
  classifies seeds by a majority vote (`SeedClassifier`).

Doubles are modelled as `real`. Java's `(int)` cast is `Numeric.Trunc`
(toward zero) and Java's `%` is `Numeric.JavaRem`. OpenCV, Apache Commons
Math, `Math.pow`, `Math.sqrt`, the Lab conversion, the colour metrics, the
percentile and median, and the SVMs are black boxes: they are parameters
(functions the caller supplies) or given inputs. Images are values
(`Pixels.Image`, rows of BGR triples). A `DoubleBuffer` over a `double[]`
is an `array<real>` with a position. Objects whose fields the source
updates are classes: `ColorCheckers.ColorChecker`, `Regression.RegressionModel`,
`ColorMetric.Color`, `ColorMetric.CellColors` and `Clusterizer.Clusterizer`.
Loops of the source are `while`/`for` loops of methods, each proved
against a specification function whose properties are lemmas.

Modules, one per source area:

| file | module | source |
|---|---|---|
| numeric.dfy | Wrappers, Numeric, Pixels | shared: Option/Result, Java arithmetic, images and buffers |
| geometry.dfy | Geometry | src/seedcounter/Quad.java |
| patch_sampling.dfy | PatchSampling | the stencil searches of ColorChecker.java |
| sample_grid.dfy | SampleGrid | the grid branch of getSamplePoints |
| pixel_passes.dfy | PixelPasses | the pixel loops of calibrate |
| color_checker.dfy | ColorCheckers | src/seedcounter/colorchecker/ColorChecker.java |
| find_color_checker.dfy | ChartLocator | src/seedcounter/colorchecker/FindColorChecker.java |
| color_space.dfy | ColorSpaces | src/seedcounter/regression/ColorSpace.java |
| features.dfy | Features | getFeatures of SimpleOLS, SecondOrderOLS, ThirdOrderOLS |
| regression.dfy | Regression | AbstractOLS, IdentityModel, RegressionFactory |
| colormetric.dfy | ColorMetric | src/seedcounter/colormetric/Color.java, CellColors.java |
| hsv_binarization.dfy | HsvBinarization | src/seedcounter/common/HSVBinarization.java |
| seed_utils.dfy | SeedUtils | src/seedcounter/common/SeedUtils.java |
| clusterizer.dfy | Clusterizer | src/seedcounter/common/Clusterizer.java |
| experiment.dfy | Experiments | the Experiment class and chart rule of SeedDatasetClustering.java |
| seed_classifier.dfy | SeedClassifiers | src/seedcounter/examples/SeedClassifier.java |

## Model

| member | source | states |
|---|---|---|
| Numeric.Trunc | src/seedcounter/colorchecker/ColorChecker.java:62-64 | Java's `(int)` cast of a double: the integer part toward zero, never farther from zero than the value |
| Numeric.JavaRem | src/seedcounter/examples/SeedDatasetClustering.java:106 | Java's `%`: the remainder has the dividend's sign and lies below the divisor in magnitude |
| Numeric.Clamp | src/seedcounter/colorchecker/ColorChecker.java:375-388 | `max(0, min(n - 1, v))` lies in [0, n) for n > 0 and is v itself when v is already in range |
| Numeric.TruncMonotone | src/seedcounter/colorchecker/ColorChecker.java:62-64 | truncation keeps the order of its arguments |
| Numeric.ClampMonotone | src/seedcounter/colorchecker/ColorChecker.java:375-388 | clamping keeps the order of its arguments |
| Geometry.FromDiagonal | src/seedcounter/Quad.java:27-33 | the two-point constructor gives the axis-aligned rectangle tr = (br.x, tl.y), bl = (tl.x, br.y) |
| Geometry.FromRows | src/seedcounter/Quad.java:35-40 | rows 0..3 of the array become tl, tr, br, bl |
| Geometry.FromCoordinates | src/seedcounter/Quad.java:42-47 | the eight-coordinate constructor stores the pair named bl into br and the pair named br into bl |
| Geometry.Points | src/seedcounter/Quad.java:49-51 | the corners in tl, tr, br, bl order |
| Geometry.Area | src/seedcounter/Quad.java:78-85 | definition of getArea: the absolute cross product of tr - tl and bl - tl; properties in Geometry.AreaNonNegativeAndIgnoresBr, DiagonalRectangleArea, AreaReverseOrder, TranslatedArea and ScaledArea |
| Geometry.AreaNonNegativeAndIgnoresBr | src/seedcounter/Quad.java:78-85 | the area is never negative and does not depend on br |
| Geometry.DiagonalRectangleArea | src/seedcounter/Quad.java:78-85 | the two-point rectangle's area is abs(width * height) |
| Geometry.AreaReverseOrder | src/seedcounter/Quad.java:78-85 | listing the corners in reverse order keeps the area |
| Geometry.TranslatedArea | src/seedcounter/Quad.java:78-85 | translating every corner by one offset keeps the area |
| Geometry.ScaledArea | src/seedcounter/Quad.java:78-85 | scaling by non-negative factors sx, sy multiplies the area by sx * sy |
| Geometry.CornersAreInside | src/seedcounter/Quad.java:70-76 | every corner passes the inclusive bounding-box test |
| Geometry.IsInside | src/seedcounter/Quad.java:70-76 | definition of isInside; properties in Geometry.InsideMeansBetweenCorners and CornersAreInside |
| Geometry.InsideMeansBetweenCorners | src/seedcounter/Quad.java:70-76 | a point is inside exactly when on each axis it lies between some two corner coordinates |
| Geometry.BigSideSize | src/seedcounter/Quad.java:53-59 | definition of getBigSideSize; properties in Geometry.SideSizesPartition |
| Geometry.SmallSideSize | src/seedcounter/Quad.java:61-67 | definition of getSmallSideSize; properties in Geometry.SideSizesPartition |
| Geometry.SideSizesPartition | src/seedcounter/Quad.java:53-67 | big and small side sizes are the two signed differences tl.x - tr.x and tl.y - bl.y, the big one the larger in absolute value |
| Geometry.RescaleIsProduct | src/seedcounter/Quad.java:117-120 | dividing by the old size and multiplying by the new is multiplying by their ratio |
| Geometry.ScaleIsProduct | src/seedcounter/Quad.java:117-120 | each recalculated point is the point scaled by newWidth/width and newHeight/height |
| Geometry.RecalculateQuadPoints | src/seedcounter/Quad.java:110-123 | definition of recalculateQuadPoints; properties in Geometry.RecalculateIsScaling and RecalculatedArea |
| Geometry.RecalculateIsScaling | src/seedcounter/Quad.java:110-123 | recalculateQuadPoints scales every corner and keeps the corner roles |
| Geometry.RecalculatedArea | src/seedcounter/Quad.java:110-123 | the recalculated quad's area is the old one times both size ratios |
| PixelPasses.MapPixelsSpec | src/seedcounter/colorchecker/ColorChecker.java:101-103 | a pass over n pixels maps each of them through f and keeps every later slot |
| PixelPasses.MapPixelsCompose | src/seedcounter/colorchecker/ColorChecker.java:117-124 | pass f then pass g over the same pixels is one pass of g after f |
| PixelPasses.AsWrittenPixelCount | src/seedcounter/colorchecker/ColorChecker.java:101 | the loop `i + 3 < size` reaches exactly the pixels p with 3p + 3 < size |
| PixelPasses.PixelCount | src/seedcounter/colorchecker/ColorChecker.java:101 | the loop `i + 3 <= size` reaches exactly the pixels p with 3p + 3 <= size |
| PixelPasses.LastPixelSkipped | src/seedcounter/colorchecker/ColorChecker.java:101-124 | as written, a buffer of whole pixels has size / 3 - 1 pixels mapped, and its last pixel keeps its input value whatever the pass does |
| PixelPasses.SinglePixelUnconverted | src/seedcounter/colorchecker/ColorChecker.java:101-124 | a one-pixel image whose calibration should change it comes back unchanged |
| PixelPasses.AllPixelsMapped | src/seedcounter/colorchecker/ColorChecker.java:101-124 | with `i + 3 <= size`, every pixel, the last one included, is mapped |
| SampleGrid.GridSize | src/seedcounter/colorchecker/ColorChecker.java:207-213 | the number of samples lo, lo + 10, ... up to hi |
| SampleGrid.GridSizeQuotient | src/seedcounter/colorchecker/ColorChecker.java:207-209 | that count is the source's `(max - min) / STEP + 1` |
| SampleGrid.GridLength | src/seedcounter/colorchecker/ColorChecker.java:209-219 | the grid has exactly xSize * ySize samples, filling the buffer the source allocates |
| SampleGrid.GridAt | src/seedcounter/colorchecker/ColorChecker.java:212-218 | sample i of row j is the pixel at column minX + 10 i of row minY + 10 j |
| SampleGrid.GridIsPrefix | src/seedcounter/colorchecker/ColorChecker.java:212-219 | the grid of k rows extends the grid of its first m rows |
| SampleGrid.GridRowAt | src/seedcounter/colorchecker/ColorChecker.java:213-218 | sample i of a row is the pixel at column minX + 10 i |
| SampleGrid.GridSamples | src/seedcounter/colorchecker/ColorChecker.java:212-219 | the double loop returns the grid of every row from minY to maxY |
| SampleGrid.GridRowSamples | src/seedcounter/colorchecker/ColorChecker.java:213-218 | the inner loop returns the row's samples from minX to maxX |
| PatchSampling.SideIndexes | src/seedcounter/colorchecker/ColorChecker.java:42-45 | the top, bottom, left and right index lists are the rows and columns of the row-major 3 x 3 stencil |
| PatchSampling.SamplerFor | src/seedcounter/colorchecker/ColorChecker.java:57-65 | the stencil spacing is at most 4% of the width and 2% of the height, and the sub-patch spacings are an eighth of it in integer division |
| PatchSampling.SurroundingAt | src/seedcounter/colorchecker/ColorChecker.java:484-496 | stencil point i is offset by column i % 3 and row i / 3 of {-xScale, 0, xScale} x {-yScale, 0, yScale} |
| PatchSampling.SurroundingSymmetry | src/seedcounter/colorchecker/ColorChecker.java:484-496 | index 4 is the centre and index 8 - i lies opposite index i |
| PatchSampling.SurroundingShift | src/seedcounter/colorchecker/ColorChecker.java:484-496 | moving the centre moves the whole stencil by the same offset |
| PatchSampling.Surrounding | src/seedcounter/colorchecker/ColorChecker.java:484-496 | nine stencil points around a centre |
| PatchSampling.ValueVarianceNonNegative | src/seedcounter/colorchecker/ColorChecker.java:356-373 | the value variance of a sub-patch is never negative in exact arithmetic |
| PatchSampling.SubPatch | src/seedcounter/colorchecker/ColorChecker.java:337-367 | nine sub-patch colours, one per offset pair |
| PatchSampling.ProbeDistances | src/seedcounter/colorchecker/ColorChecker.java:282-294 | nine probes; entry i is the probe of stencil point i |
| PatchSampling.Nearest | src/seedcounter/colorchecker/ColorChecker.java:279-294 | the nearest-probe scan returns an index in [-1, 9) |
| PatchSampling.NearestIsFirstMinimum | src/seedcounter/colorchecker/ColorChecker.java:279-296 | the scan finds the first probe of least distance below 1e9, and -1 exactly when there is none |
| PatchSampling.StepAxis | src/seedcounter/colorchecker/ColorChecker.java:309-331 | on one axis the coordinate moves by one step only when allowed, and the step shrinks whenever a direction was chosen |
| PatchSampling.Advance | src/seedcounter/colorchecker/ColorChecker.java:309-331 | the end of a round: both axes step as chosen, each only where its own check allowed |
| PatchSampling.AdvanceKeepsInside | src/seedcounter/colorchecker/ColorChecker.java:309-331 | a round whose moves were each allowed by the check on its axis keeps the whole stencil inside |
| PatchSampling.Directions | src/seedcounter/colorchecker/ColorChecker.java:309-331 | a chosen stencil index asks for -1, 0 or +1 on each axis |
| PatchSampling.ReferenceRoundBound | src/seedcounter/colorchecker/ColorChecker.java:309-331 | with steps shrinking by 1.2, six first steps bound the rest of the reference search |
| PatchSampling.DeviationRoundBound | src/seedcounter/colorchecker/ColorChecker.java:410-448 | with steps shrinking by 1.5, three first steps bound the rest of the deviation search |
| PatchSampling.ReferenceSearch | src/seedcounter/colorchecker/ColorChecker.java:268-335 | the reference search keeps a stencil that starts inside inside, and moves the centre at most 6 first steps on each axis |
| PatchSampling.ReferenceRoundFacts | src/seedcounter/colorchecker/ColorChecker.java:277-332 | a reference round that carries on keeps a stencil that was inside inside, and keeps its steps non-negative |
| PatchSampling.ReferenceRoundMoves | src/seedcounter/colorchecker/ColorChecker.java:309-331 | a reference round moves each coordinate by its step or not at all, shrinking the step by 1.2 when it moves |
| PatchSampling.ReferenceSearchStops | src/seedcounter/colorchecker/ColorChecker.java:296-307 | the search leaves the centre alone when no probe is flat enough or the opposite probe is nearly as close |
| PatchSampling.ReferenceRoundStops | src/seedcounter/colorchecker/ColorChecker.java:296-307 | the round behind it stops in those two cases |
| PatchSampling.SidesInside | src/seedcounter/colorchecker/ColorChecker.java:460-471 | the side sums read in bounds whenever the shifted stencil is inside |
| PatchSampling.Dominant | src/seedcounter/colorchecker/ColorChecker.java:410-419 | +1 when the first side's sum is at least 1.5 times the second's, -1 in the opposite case, else 0 |
| PatchSampling.DeviationAxis | src/seedcounter/colorchecker/ColorChecker.java:410-428 | an axis asks for -1, 0 or +1, and moves only in a chosen direction whose shifted stencil stays inside |
| PatchSampling.BalanceOutcome | src/seedcounter/colorchecker/ColorChecker.java:410-448 | a half round that moved exactly when the trial lowered the sums ends where DeviationAxis says |
| PatchSampling.AxisMovesKeepInside | src/seedcounter/colorchecker/ColorChecker.java:410-450 | moves committed only when the stencil shifted along that axis stays inside keep the stencil inside |
| PatchSampling.DeviationRoundFacts | src/seedcounter/colorchecker/ColorChecker.java:402-451 | a deviation round carries on, keeps the stencil inside and keeps its steps non-negative |
| PatchSampling.DeviationSearch | src/seedcounter/colorchecker/ColorChecker.java:398-454 | the deviation search keeps the stencil inside and moves the centre at most 3 steps on each axis |
| PatchSampling.CenterWithMargin | src/seedcounter/colorchecker/ColorChecker.java:473-482 | a centre one stencil spacing inside every edge keeps its stencil inside |
| PatchSampling.InitialCentersInside | src/seedcounter/colorchecker/ColorChecker.java:67-74 | every initial centre of a chart has its whole stencil inside the chart |
| PatchSampling.InitialCenterMargins | src/seedcounter/colorchecker/ColorChecker.java:62-74 | an initial centre lies at least one stencil step inside the chart |
| PatchSampling.XMargin | src/seedcounter/colorchecker/ColorChecker.java:62-68 | a centre between 14.3% and 86.2% of the width is at least one stencil step from either side |
| PatchSampling.YMargin | src/seedcounter/colorchecker/ColorChecker.java:62-68 | a centre between 16% and 85.6% of the height is at least one stencil step from the top and the bottom |
| PatchSampling.CenterFractions | src/seedcounter/colorchecker/ColorChecker.java:67-68 | the relative centres lie between 14% and 87% of either side |
| ColorCheckers.CenterFor | src/seedcounter/colorchecker/ColorChecker.java:67-84 | the stored centre, refined by the searches its flags enable, keeps its stencil inside and lies within 9 steps of the initial centre |
| ColorCheckers.UncorrectedGrid | src/seedcounter/colorchecker/ColorChecker.java:71-84 | with neither correction the centres are the initial grid (xCenters[col] width, yCenters[row] height) |
| ColorCheckers.SubPatchAt | src/seedcounter/colorchecker/ColorChecker.java:337-354 | sub-patch entry 3 (a + 1) + (b + 1) is the clamped colour at offset a patch widths along x and b patch heights along y |
| ColorCheckers.ValueAt | src/seedcounter/colorchecker/ColorChecker.java:356-373 | value entry 3 (a + 1) + (b + 1) is the largest channel of that colour |
| ColorCheckers.PatchCenter | src/seedcounter/colorchecker/ColorChecker.java:172-186 | the centre of patch p, row by row, has its stencil inside |
| ColorCheckers.StencilSamples | src/seedcounter/colorchecker/ColorChecker.java:220-228 | nine reads per patch |
| ColorCheckers.PatchSamples | src/seedcounter/colorchecker/ColorChecker.java:192-231 | nine samples per patch on the stencil branch |
| ColorCheckers.LabelsLength | src/seedcounter/colorchecker/ColorChecker.java:175-183 | every collected colour has its reference colour: the two lists have the same length |
| ColorCheckers.FlattenNines | src/seedcounter/colorchecker/ColorChecker.java:150-161 | with nine colours per patch, patch p gives colours 9p .. 9p + 8, each paired with p's reference |
| ColorCheckers.PatchIndex | src/seedcounter/colorchecker/ColorChecker.java:175-176 | patch (row, col) is patch 4 row + col of the row-by-row count |
| ColorCheckers.CollectedStep | src/seedcounter/colorchecker/ColorChecker.java:175-183 | one more patch appends its samples and as many copies of its reference colour |
| ColorCheckers.Converted | src/seedcounter/colorchecker/ColorChecker.java:150-162 | each colour converted out of BGR into the space, position by position |
| ColorCheckers.ConvertedAppend | src/seedcounter/colorchecker/ColorChecker.java:150-162 | conversion distributes over concatenation |
| ColorCheckers.StencilCollected | src/seedcounter/colorchecker/ColorChecker.java:150-161 | colour k of the stencil samples is stencil point k % 9 of patch k / 9, paired with that patch's reference |
| ColorCheckers.TrainingPairs | src/seedcounter/colorchecker/ColorChecker.java:150-162 | 216 training pairs; pair k is point k % 9 of patch k / 9 in the features space and that patch's reference in the target space |
| ColorCheckers.PixelArea | src/seedcounter/colorchecker/ColorChecker.java:87-89 | 64 x 108 mm over the quad's area; none for a degenerate quad; positive otherwise |
| ColorCheckers.ThreePasses | src/seedcounter/colorchecker/ColorChecker.java:101-124 | after the three passes pixel p is h(g(f(input))) and later slots are untouched |
| ColorCheckers.FromBgrPass | src/seedcounter/colorchecker/ColorChecker.java:101-103 | the first pass converts each of the first n pixels in place into the features space |
| ColorCheckers.CalibratePass | src/seedcounter/colorchecker/ColorChecker.java:117-120 | the second pass replaces each of the first n pixels by the model's estimate |
| ColorCheckers.ToBgrPass | src/seedcounter/colorchecker/ColorChecker.java:122-124 | the third pass converts each of the first n pixels back to BGR |
| ColorCheckers.FromBgrPixel | src/seedcounter/colorchecker/ColorChecker.java:101-103 | one step of the first pass extends the mapped prefix by pixel p |
| ColorCheckers.CalibratePixel | src/seedcounter/colorchecker/ColorChecker.java:117-120 | one step of the second pass extends the mapped prefix by pixel p |
| ColorCheckers.ToBgrPixel | src/seedcounter/colorchecker/ColorChecker.java:122-124 | one step of the third pass extends the mapped prefix by pixel p |
| ColorCheckers.ColorChecker.constructor | src/seedcounter/colorchecker/ColorChecker.java:57-85 | builds the 6 x 4 grid row by row, each centre refined as the flags say (CenterFor) |
| ColorCheckers.ColorChecker.RowCenters | src/seedcounter/colorchecker/ColorChecker.java:71-84 | the inner loop: the centres of one row, left to right |
| ColorCheckers.ColorChecker.PatchCenterFor | src/seedcounter/colorchecker/ColorChecker.java:74-81 | one patch: reference correction before deviation correction, each only if its flag is set |
| ColorCheckers.ColorChecker.CheckCorrectness | src/seedcounter/colorchecker/ColorChecker.java:473-482 | true exactly when every shifted point lies in [0, cols) x [0, rows) |
| ColorCheckers.ColorChecker.GetMeanColor | src/seedcounter/colorchecker/ColorChecker.java:337-354 | the channel-wise mean of the nine clamped sub-patch colours |
| ColorCheckers.ColorChecker.SubPatchMoments | src/seedcounter/colorchecker/ColorChecker.java:356-367 | the sums of the sub-patch's values and of their squares |
| ColorCheckers.ColorChecker.SubPatchColor | src/seedcounter/colorchecker/ColorChecker.java:340-347 | one visit of getMeanColor reads sub-patch entry 3 (row + 1) + (col + 1) |
| ColorCheckers.ColorChecker.SubPatchValue | src/seedcounter/colorchecker/ColorChecker.java:360-367 | one visit of getValueVariance reads that entry's value |
| ColorCheckers.ColorChecker.GetValueVariance | src/seedcounter/colorchecker/ColorChecker.java:356-373 | second moment over 9 minus the squared first moment over 9, equal to ValueVariance |
| ColorCheckers.ColorChecker.Probe | src/seedcounter/colorchecker/ColorChecker.java:283-293 | the Lab distance of the probe's sub-patch when its variance is below the threshold, else nothing |
| ColorCheckers.ColorChecker.NearestProbe | src/seedcounter/colorchecker/ColorChecker.java:279-294 | the scan's index and distance are those of Nearest over the nine probes |
| ColorCheckers.ColorChecker.ReferenceStep | src/seedcounter/colorchecker/ColorChecker.java:277-332 | one round of correctByReference, equal to ReferenceRound |
| ColorCheckers.ColorChecker.MoveTowards | src/seedcounter/colorchecker/ColorChecker.java:309-331 | a step towards the nearest probe on each axis it asks for, committed only if the stencil stays inside; the step shrinks by 1.2 either way |
| ColorCheckers.ColorChecker.CorrectByReference | src/seedcounter/colorchecker/ColorChecker.java:257-335 | at most three rounds from the stencil spacings; the result is ReferenceSearch's |
| ColorCheckers.ColorChecker.BalanceAxis | src/seedcounter/colorchecker/ColorChecker.java:410-448 | one half round of correctByDeviation, ending where DeviationAxis says |
| ColorCheckers.ColorChecker.SideSumsAt | src/seedcounter/colorchecker/ColorChecker.java:404-407 | the two opposite side sums of the unshifted stencil, as deviationSum reads them |
| ColorCheckers.ColorChecker.TryShift | src/seedcounter/colorchecker/ColorChecker.java:411-417 | the trial move: checkCorrectness on the shifted stencil, then the shifted side sums compared with the sum before |
| ColorCheckers.ColorChecker.DeviationStep | src/seedcounter/colorchecker/ColorChecker.java:402-451 | one round of correctByDeviation: both halves judge the same stencil; equal to DeviationRound |
| ColorCheckers.ColorChecker.CorrectByDeviation | src/seedcounter/colorchecker/ColorChecker.java:390-454 | exactly ten rounds; the result is DeviationSearch's |
| ColorCheckers.ColorChecker.GetSamplePoints | src/seedcounter/colorchecker/ColorChecker.java:192-231 | the ten-pixel grid over the stencil's bounding box, or the nine stencil reads |
| ColorCheckers.ColorChecker.StencilReads | src/seedcounter/colorchecker/ColorChecker.java:220-228 | the nine stencil points read in stencil order |
| ColorCheckers.ColorChecker.GetCellColors | src/seedcounter/colorchecker/ColorChecker.java:172-186 | the samples of every patch, row by row, each paired with that patch's reference colour |
| ColorCheckers.ColorChecker.AddRow | src/seedcounter/colorchecker/ColorChecker.java:176-182 | the patches of one row appended, left to right |
| ColorCheckers.ColorChecker.AddPatch | src/seedcounter/colorchecker/ColorChecker.java:177-181 | the samples of one patch appended, each with the patch's reference colour |
| ColorCheckers.ColorChecker.CalculateTrainAndAnswers | src/seedcounter/colorchecker/ColorChecker.java:150-162 | each stencil read converted into the features space, paired with its patch's reference converted into the target space |
| ColorCheckers.ColorChecker.ConvertPatch | src/seedcounter/colorchecker/ColorChecker.java:154-159 | what one patch adds to the converted samples and references |
| ColorCheckers.ColorChecker.LabDeviationFromReference | src/seedcounter/colorchecker/ColorChecker.java:164-166 | the mean Lab distance of the stencil reads from their reference colours |
| ColorCheckers.ColorChecker.TransformationDeviation | src/seedcounter/colorchecker/ColorChecker.java:133-148 | the model's deviance on the training pairs in the features space; a singular fit is an error |
| ColorCheckers.ColorChecker.TrainOnChart | src/seedcounter/colorchecker/ColorChecker.java:108-115 | the model trained on the chart's pairs; a failed fit is reported instead of thrown |
| ColorCheckers.ColorChecker.CalibrateBuffer | src/seedcounter/colorchecker/ColorChecker.java:91-130 | convert, train, calibrate and convert back the first n pixels; a failed training is an error |
| ColorCheckers.ColorChecker.Calibrate | src/seedcounter/colorchecker/ColorChecker.java:91-130 | calibrate as written: only the pixels p with 3p + 3 < size are converted |
| ColorCheckers.ColorChecker.CalibrateAllPixels | src/seedcounter/colorchecker/ColorChecker.java:91-130 | calibrate with the bound `i + 3 <= size`: every pixel is converted |
| ChartLocator.GoodMatches | src/seedcounter/colorchecker/FindColorChecker.java:113-132 | never more kept matches than pairs |
| ChartLocator.GoodMatchesAreTheFilter | src/seedcounter/colorchecker/FindColorChecker.java:121-131 | exactly the best matches of the pairs passing best <= threshold * second, in the pairs' order |
| ChartLocator.NoGoodMatches | src/seedcounter/colorchecker/FindColorChecker.java:121-131 | no match is kept exactly when no pair passes the ratio test |
| ChartLocator.GoodMatchesAppend | src/seedcounter/colorchecker/FindColorChecker.java:121-131 | filtering distributes over concatenation |
| ChartLocator.GetGoodMatches | src/seedcounter/colorchecker/FindColorChecker.java:113-132 | the loop appends each kept best match, giving GoodMatches |
| ChartLocator.GetHomography | src/seedcounter/colorchecker/FindColorChecker.java:91-154 | a homography exactly when the image is at least 100 x 50, has two keypoints, some pair passes the ratio test and the fit is not empty |
| ChartLocator.ReferenceCornersSize | src/seedcounter/colorchecker/FindColorChecker.java:164-167 | the widened frame is (1 + 2 scale) times the reference size on each axis, and its area is the product of the two sides |
| ChartLocator.MarginsNest | src/seedcounter/colorchecker/FindColorChecker.java:164-167 | every corner of the frame widened by s lies inside the frame widened by t >= s |
| ChartLocator.GetQuad | src/seedcounter/colorchecker/FindColorChecker.java:156-173 | none without a homography, else the widened frame's corners projected in tl, tr, br, bl order |
| ChartLocator.NoMarginProjectsTheFrame | src/seedcounter/colorchecker/FindColorChecker.java:156-173 | with margin 0 the projected corners are those of (0, 0), (w, 0), (w, h), (0, h) |
| ChartLocator.FullImageQuad | src/seedcounter/colorchecker/FindColorChecker.java:82-89 | the rectangle from (0, 0) to (cols - 1, rows - 1) |
| ChartLocator.ReleasedQuad | src/seedcounter/colorchecker/FindColorChecker.java:82-89 | fullImageQuad of a released, 0 x 0 Mat is (0, 0), (-1, 0), (-1, -1), (0, -1) |
| ChartLocator.FullImageQuadCoversPixels | src/seedcounter/colorchecker/FindColorChecker.java:82-89 | every pixel position is inside it, and its area is (cols - 1) (rows - 1) |
| ChartLocator.FindColorChecker | src/seedcounter/colorchecker/FindColorChecker.java:62-64 | definition of the one-pass findColorChecker; properties in ChartLocator.FindColorCheckerCases and NoMarginProjectsTheFrame |
| ChartLocator.FindColorCheckerCases | src/seedcounter/colorchecker/FindColorChecker.java:62-64 | the full-image quad exactly when there is no homography (always under 100 x 50), else the projected reference frame |
| ChartLocator.Left | src/seedcounter/colorchecker/FindColorChecker.java:210-215 | definition of left: the truncated least x of the corners; properties in ChartLocator.ExtremesOrdered |
| ChartLocator.Right | src/seedcounter/colorchecker/FindColorChecker.java:217-222 | definition of right: the truncated greatest x; properties in ChartLocator.ExtremesOrdered |
| ChartLocator.Top | src/seedcounter/colorchecker/FindColorChecker.java:224-229 | definition of top: the truncated least y; properties in ChartLocator.ExtremesOrdered |
| ChartLocator.Bottom | src/seedcounter/colorchecker/FindColorChecker.java:231-236 | definition of bottom: the truncated greatest y; properties in ChartLocator.ExtremesOrdered |
| ChartLocator.ExtremesOrdered | src/seedcounter/colorchecker/FindColorChecker.java:210-236 | left <= right and top <= bottom, and every corner lies between the extremes |
| ChartLocator.ClipRow | src/seedcounter/colorchecker/FindColorChecker.java:189-191 | definition of clipRow; properties in ChartLocator.ImageSplice |
| ChartLocator.ClipCol | src/seedcounter/colorchecker/FindColorChecker.java:193-195 | definition of clipCol; properties in ChartLocator.ImageSplice |
| ChartLocator.ImageSplice | src/seedcounter/colorchecker/FindColorChecker.java:182-195 | the clipped crop is never empty and its pixel (y, x) is the image's pixel at the crop origin plus (y, x) |
| ChartLocator.ShiftQuad | src/seedcounter/colorchecker/FindColorChecker.java:197-208 | as written: every corner moves by the unclipped truncated left and top of the shift quad |
| ChartLocator.CropShiftAddressesSamePixel | src/seedcounter/colorchecker/FindColorChecker.java:182-208 | a crop pixel moved by the crop origin addresses the same image pixel |
| ChartLocator.ShiftsAgreeInside | src/seedcounter/colorchecker/FindColorChecker.java:197-208 | when the shift quad's left and top lie in the image, the shift as written equals the shift by the crop origin |
| ChartLocator.ShiftQuadIgnoresClipping | src/seedcounter/colorchecker/FindColorChecker.java:197-208 | a shift quad reaching past the top-left corner: the crop starts at (0, 0) but the shift as written moves a corner to (-10, -10) |
| ChartLocator.FindWithMarginAsWritten | src/seedcounter/colorchecker/FindColorChecker.java:66-80 | definition of the two-pass findColorChecker as written, shifting by the unclipped left and top; when the second pass fails it gives the crop's full quad, where the source measures the released 0 x 0 crop (ChartLocator.ReleasedQuad); properties in ChartLocator.FindWithMarginCases and ShiftQuadIgnoresClipping |
| ChartLocator.FindWithMargin | src/seedcounter/colorchecker/FindColorChecker.java:66-80 | definition of the two-pass search shifting by the crop origin; properties in ChartLocator.FindWithMarginCases |
| ChartLocator.FindWithMarginCases | src/seedcounter/colorchecker/FindColorChecker.java:66-80 | the two-pass search: full image when pass one fails, the crop's full quad when pass two fails (the source measures the crop after releasing it, see ChartLocator.ReleasedQuad; releasing is not modelled), else pass two shifted by the crop origin, which agrees with the source when no clipping happened |
| ChartLocator.Candidates | src/seedcounter/colorchecker/FindColorChecker.java:38-57 | the one-pass quad, then the two-pass quad of ChartLocator.FindWithMarginAsWritten (shifted by the unclipped left and top) for each margin 0.05, 0.1, 0.2 |
| ChartLocator.CandidatesCorrected | src/seedcounter/colorchecker/FindColorChecker.java:38-57 | the same list with the corrected two-pass search ChartLocator.FindWithMargin for each margin |
| ChartLocator.CandidatesAgreeUnclipped | src/seedcounter/colorchecker/FindColorChecker.java:38-80 | when no margin's first quad reaches past the image's left or top edge, the as-written and corrected candidate lists are equal |
| ChartLocator.BestIndexIsFirstMinimum | src/seedcounter/colorchecker/FindColorChecker.java:38-60 | the chosen candidate scores no more than any other and strictly less than every earlier one |
| ChartLocator.BestIndex | src/seedcounter/colorchecker/FindColorChecker.java:38-60 | the chosen position is a candidate's |
| ChartLocator.BestIndexExtend | src/seedcounter/colorchecker/FindColorChecker.java:46-57 | one more candidate replaces the best only with a strictly smaller score |
| ChartLocator.FindBestFitColorChecker | src/seedcounter/colorchecker/FindColorChecker.java:38-60 | the loop, which calls the as-written two-pass search ChartLocator.FindWithMarginAsWritten, returns the candidate of ChartLocator.Candidates at BestIndex, the first of least score |
| ChartLocator.FindBestFitCorrected | src/seedcounter/colorchecker/FindColorChecker.java:38-60 | the same loop over the corrected two-pass search returns the first candidate of least score among ChartLocator.CandidatesCorrected |
| ColorSpaces.SpaceOf | src/seedcounter/regression/ColorSpace.java:8-19 | the space with the given isXYZ and isLinear flags |
| ColorSpaces.FlagTable | src/seedcounter/regression/ColorSpace.java:8-19 | the flag table is a bijection: each space is determined by its two flags |
| ColorSpaces.Linearize | src/seedcounter/regression/ColorSpace.java:21-30 | definition of linearizeRGB; properties in ColorSpaces.LinearSegmentsInverse and LinearSegmentBounds |
| ColorSpaces.InverseLinearize | src/seedcounter/regression/ColorSpace.java:32-41 | definition of inverseLinearizeRGB; properties in ColorSpaces.LinearSegmentsInverse and LinearSegmentBounds |
| ColorSpaces.LinearSegmentsInverse | src/seedcounter/regression/ColorSpace.java:21-41 | on the linear segments of the curve linearizeRGB and inverseLinearizeRGB undo each other, in both orders |
| ColorSpaces.LinearSegmentBounds | src/seedcounter/regression/ColorSpace.java:21-30 | a dark channel (0 to 10) is on the linear segment, c / 255 / 12.92 * 100, and below 0.31 |
| ColorSpaces.RgbIsIdentity | src/seedcounter/regression/ColorSpace.java:43-86 | plain RGB converts nothing in either direction |
| ColorSpaces.ToXyz | src/seedcounter/regression/ColorSpace.java:59-62 | definition of the RGB to XYZ matrix; properties in ColorSpaces.LinearPrimaries and XyzRoundTrip |
| ColorSpaces.FromXyz | src/seedcounter/regression/ColorSpace.java:73-80 | definition of the XYZ to RGB matrix; properties in ColorSpaces.XyzRoundTrip |
| ColorSpaces.LinearisationOrder | src/seedcounter/regression/ColorSpace.java:43-86 | linear XYZ is the curve then the matrix, and back the inverse matrix then the inverse curve |
| ColorSpaces.XyzRoundTrip | src/seedcounter/regression/ColorSpace.java:59-80 | without the curve, BGR to XYZ and back returns each channel of a 0..255 colour within 0.1 |
| ColorSpaces.LinearPrimaries | src/seedcounter/regression/ColorSpace.java:53-62 | in linear XYZ the full primaries land on the matrix columns scaled to 100 |
| ColorSpaces.ConvertFromBgr | src/seedcounter/regression/ColorSpace.java:43-70 | in place, the three slots at the position are converted; out of place a fresh 3-slot buffer is converted and the caller's is unchanged |
| ColorSpaces.ConvertToBgr | src/seedcounter/regression/ColorSpace.java:72-86 | the three slots are overwritten with the inverse matrix, then the inverse curve |
| Features.SimpleFeatures | src/seedcounter/regression/SimpleOLS.java:13-21 | three features, the channels in order |
| Features.SecondOrderFeatures | src/seedcounter/regression/SecondOrderOLS.java:13-23 | nine features |
| Features.ThirdOrderFeatures | src/seedcounter/regression/ThirdOrderOLS.java:11-26 | nineteen features |
| Features.FeaturePrefixes | src/seedcounter/regression/ThirdOrderOLS.java:16-25 | each expansion starts with the whole expansion of the degree below |
| Features.FeaturesAt | src/seedcounter/regression/ThirdOrderOLS.java:11-14 | the expansion of the three channels at the buffer's position |
| Features.FeaturesAreMonomials | src/seedcounter/regression/SecondOrderOLS.java:18-22 | each hand-written list is exactly the monomials of degree 1..d in lexicographic order |
| Features.Combos | src/seedcounter/regression/ThirdOrderOLS.java:16-25 | reference definition independent of the hand-written lists: the non-decreasing channel-index tuples of length d in lexicographic order; properties in Features.CombosWellFormed, CombosComplete, CombosSorted and FeaturesAreMonomials |
| Features.Monomials | src/seedcounter/regression/SecondOrderOLS.java:18-22 | reference definition: entry k is the product of the channels named by tuple k; properties in Features.FeaturesAreMonomials |
| Features.CombosWellFormed | src/seedcounter/regression/ThirdOrderOLS.java:16-25 | every listed monomial names d channels in non-decreasing order |
| Features.CombosComplete | src/seedcounter/regression/ThirdOrderOLS.java:16-25 | every monomial of degree d is listed |
| Features.CombosSorted | src/seedcounter/regression/ThirdOrderOLS.java:16-25 | the list is strictly increasing, so no monomial appears twice |
| Features.SortedDistinct | src/seedcounter/regression/ThirdOrderOLS.java:16-25 | a strictly sorted list has distinct entries |
| Features.FeaturesOf | src/seedcounter/regression/AbstractOLS.java:116 | the expansion of a model of degree 1, 2 or 3 has 3, 9 or 19 features |
| Regression.OrderIndex | src/seedcounter/regression/RegressionFactory.java:17-22 | the four orders are numbered 0..3 |
| Regression.OrderValues | src/seedcounter/regression/RegressionFactory.java:17-22 | the numbering lists IDENTITY, FIRST, SECOND, THIRD |
| Regression.OrderFeatureCount | src/seedcounter/regression/RegressionFactory.java:10-14 | FIRST, SECOND and THIRD models have 3, 9 and 19 features |
| Regression.Degree | src/seedcounter/regression/RegressionFactory.java:10-14 | FIRST, SECOND and THIRD are degrees 1, 2, 3, their order numbers |
| Regression.Design | src/seedcounter/regression/AbstractOLS.java:79-86 | the design rows are the features of the first |answers| training colours |
| Regression.Column | src/seedcounter/regression/AbstractOLS.java:26-34 | channel k of every answer colour |
| Regression.Estimate | src/seedcounter/regression/AbstractOLS.java:95-102 | definition of getEstimate as a value; properties in Regression.DotPrepend, InterceptIsConstantFeature and DotLinear, and Regression.RegressionModel.GetEstimate computes it |
| Regression.DotPrepend | src/seedcounter/regression/AbstractOLS.java:95-102 | a leading feature adds its product with the leading coefficient |
| Regression.InterceptIsConstantFeature | src/seedcounter/regression/AbstractOLS.java:95-102 | an intercept is a constant feature 1 in front |
| Regression.DotLinear | src/seedcounter/regression/AbstractOLS.java:95-102 | the estimate is linear in the coefficients |
| Regression.ChannelIndependence | src/seedcounter/regression/AbstractOLS.java:25-39 | each channel's fit depends only on that channel of the answers |
| Regression.ChannelFitSized | src/seedcounter/regression/AbstractOLS.java:79-93 | with a solver that returns one coefficient per column (plus the intercept), a successful fit has the width the estimate needs |
| Regression.TrainingReady | src/seedcounter/regression/AbstractOLS.java:25-39 | a training run that succeeds leaves a model that can calibrate |
| Regression.CalibrateColor | src/seedcounter/regression/AbstractOLS.java:105-109 | the calibrated colour; the identity model returns the colour unchanged |
| Regression.Calibration | src/seedcounter/regression/AbstractOLS.java:105-109 | the per-colour calibration of a model, equal to CalibrateColor whenever the model can calibrate |
| Regression.FeatureColumn | src/seedcounter/regression/AbstractOLS.java:51-57 | feature k of every target colour |
| Regression.FeatureColumnStep | src/seedcounter/regression/AbstractOLS.java:51-57 | one more target colour appends its feature k |
| Regression.UnitRow | src/seedcounter/regression/AbstractOLS.java:62-67 | the row [1, 0, ..., 0] |
| Regression.RegressionModel.constructor | src/seedcounter/regression/RegressionFactory.java:6-15 | createModel: identity ignores the intercept flag, the others receive it unchanged; no coefficients yet |
| Regression.RegressionModel.Apply | src/seedcounter/regression/AbstractOLS.java:105-109 | what calibration turns a colour into; the identity model keeps it |
| Regression.RegressionModel.Name | src/seedcounter/regression/AbstractOLS.java:111-114 | the name is the class name SimpleOLS, SecondOrderOLS or ThirdOrderOLS of the order, followed by "Intercept" exactly when an intercept is fitted |
| Regression.ClassName | src/seedcounter/regression/RegressionFactory.java:10-14 | the class createModel instantiates for FIRST, SECOND and THIRD: SimpleOLS, SecondOrderOLS, ThirdOrderOLS, each ending in "OLS" |
| Regression.NamesDistinct | src/seedcounter/regression/AbstractOLS.java:111-114 | two models have the same getName exactly when they have the same order and intercept flag |
| Regression.RegressionModel.GetEstimate | src/seedcounter/regression/AbstractOLS.java:95-102 | the loop computes the intercept term plus the dot product of features and coefficients |
| Regression.RegressionModel.TrainChannel | src/seedcounter/regression/AbstractOLS.java:79-93 | the solver is given the design rows, the answers and the intercept flag |
| Regression.RegressionModel.Train | src/seedcounter/regression/AbstractOLS.java:25-39 | fits channels 0, 1, 2 in turn; a singular fit stops it and leaves the later coefficients as they were |
| Regression.RegressionModel.Calibrate | src/seedcounter/regression/AbstractOLS.java:104-109 | overwrites exactly the three slots at the position with the estimates from the pre-write features |
| Regression.RegressionModel.DevianceMatrix | src/seedcounter/regression/AbstractOLS.java:59-74 | square of side featureCount + intercept, unit first row with an intercept, row k + offset the fit of target feature k |
| Regression.RegressionModel.TransformationDeviance | src/seedcounter/regression/AbstractOLS.java:41-77 | 1 - det of the deviance matrix when every fit succeeds with the right width, an error otherwise |
| Regression.RegressionModel.DevianceMatrixFromRows | src/seedcounter/regression/AbstractOLS.java:59-74 | a matrix with the unit row and the fits in the following rows is the deviance matrix |
| Regression.IdentityCalibrateColor | src/seedcounter/regression/IdentityModel.java:14-17 | a new colour over the same buffer with the same Lab cache |
| ColorMetric.LabOffsets | src/seedcounter/colormetric/Color.java:35-48 | L rescaled by 1 / 2.55, a and b less 128; inverted by RawLab |
| ColorMetric.OffsetsRoundTrip | src/seedcounter/colormetric/Color.java:35-48 | the human-friendly Lab reading and the raw one convert back and forth exactly |
| ColorMetric.Color.constructor | src/seedcounter/colormetric/Color.java:14-17 | wraps the buffer with an empty Lab cache |
| ColorMetric.Color.Bgr | src/seedcounter/colormetric/Color.java:19-21 | the three channels at the buffer's position |
| ColorMetric.Color.Blue | src/seedcounter/colormetric/Color.java:31-33 | channel 0 |
| ColorMetric.Color.Green | src/seedcounter/colormetric/Color.java:27-29 | channel 1 |
| ColorMetric.Color.Red | src/seedcounter/colormetric/Color.java:23-25 | channel 2 |
| ColorMetric.Color.CalculateLab | src/seedcounter/colormetric/Color.java:50-55 | fills the cache only while empty; later changes to the buffer are not seen |
| ColorMetric.Color.Lightness | src/seedcounter/colormetric/Color.java:35-38 | the cached L channel over 2.55 |
| ColorMetric.Color.A | src/seedcounter/colormetric/Color.java:40-43 | the cached a channel less 128 |
| ColorMetric.Color.B | src/seedcounter/colormetric/Color.java:45-48 | the cached b channel less 128 |
| ColorMetric.PairMetrics | src/seedcounter/colormetric/CellColors.java:23-29 | the metric of each (actual, reference) pair |
| ColorMetric.MeanBounds | src/seedcounter/colormetric/CellColors.java:23-29 | bounds on every element bound the mean |
| ColorMetric.MeanAppend | src/seedcounter/colormetric/CellColors.java:18-29 | one more pair moves the mean by the weighted new value |
| ColorMetric.CellColors.constructor | src/seedcounter/colormetric/CellColors.java:13-16 | both lists start empty |
| ColorMetric.CellColors.AddColor | src/seedcounter/colormetric/CellColors.java:18-21 | appends the pair to the two lists |
| ColorMetric.CellColors.CalculateMetric | src/seedcounter/colormetric/CellColors.java:23-29 | the mean of the pair metrics over all pairs |
| HsvBinarization.Hitting | src/seedcounter/common/HSVBinarization.java:32-39 | definition of the hitting flag; properties in HsvBinarization.HittingIffSomeHit, AddingPairKeepsForeground and EdgeIsBackground |
| HsvBinarization.HittingIffSomeHit | src/seedcounter/common/HSVBinarization.java:32-39 | the hitting flag is set exactly when some pair's strict box holds the pixel |
| HsvBinarization.MaskValue | src/seedcounter/common/HSVBinarization.java:41-45 | definition of the mask value; properties in HsvBinarization.MaskValueMeaning |
| HsvBinarization.MaskValueMeaning | src/seedcounter/common/HSVBinarization.java:32-45 | 255 exactly when some box holds the pixel, 0 exactly when none does; with no pairs every pixel is 0 |
| HsvBinarization.AddingPairKeepsForeground | src/seedcounter/common/HSVBinarization.java:33-39 | adding a pair anywhere never turns a foreground pixel into background |
| HsvBinarization.EdgeIsBackground | src/seedcounter/common/HSVBinarization.java:37 | the test is strict: a pixel on a box's edge is not foreground for that box alone |
| HsvBinarization.PixelHit | src/seedcounter/common/HSVBinarization.java:32-39 | the loop over the pairs computes the hitting flag |
| HsvBinarization.MaskRow | src/seedcounter/common/HSVBinarization.java:29-46 | one row of the mask written, the other rows kept |
| HsvBinarization.Apply | src/seedcounter/common/HSVBinarization.java:20-50 | a fresh mask of the image's size, pixel (i, j) set by the box test of HSV pixel (i, j) |
| SeedUtils.KernelSize | src/seedcounter/common/SeedUtils.java:24-27 | definition of the kernel size; properties in SeedUtils.KernelSizeRule and KernelShrinksWithScale |
| SeedUtils.KernelSizeRule | src/seedcounter/common/SeedUtils.java:24-27 | the kernel is at least 10, is 10 without a scale, and is trunc(1.5 / sqrt(scale)) when that reaches 10 |
| SeedUtils.KernelShrinksWithScale | src/seedcounter/common/SeedUtils.java:24-27 | a larger scale never gives a larger kernel |
| SeedUtils.GetMask | src/seedcounter/common/SeedUtils.java:18-35 | a closing then an opening with the same kernel of size at least 10 |
| SeedUtils.CentreCrop | src/seedcounter/common/SeedUtils.java:37-46 | rows [rows/4, 3 rows/4) and columns [cols/4, 3 cols/4) of the filtered image |
| SeedUtils.CropIsCentred | src/seedcounter/common/SeedUtils.java:39-40 | the crop keeps about the middle half, within one pixel |
| SeedUtils.MinFromIsMinimum | src/seedcounter/common/SeedUtils.java:59-77 | the minimum scan is below the start and every element, and is one of them |
| SeedUtils.MaxFromIsMaximum | src/seedcounter/common/SeedUtils.java:59-77 | the maximum scan is above the start and every element, and is one of them |
| SeedUtils.BoundingBox | src/seedcounter/common/SeedUtils.java:59-77 | definition of the contour's bounding box; properties in SeedUtils.BoundingBoxIsTight, and SeedUtils.ComputeBox computes it |
| SeedUtils.BoundingBoxIsTight | src/seedcounter/common/SeedUtils.java:59-77 | for a contour in the image the box lies in the image, holds every point and touches a point on each side |
| SeedUtils.ComputeBox | src/seedcounter/common/SeedUtils.java:64-77 | the loop computes BoundingBox |
| SeedUtils.RowSamplesMembers | src/seedcounter/common/SeedUtils.java:82-96 | a sample is in a row's list exactly when it is a kept pixel of that row with its colour and filter minimum |
| SeedUtils.BoxSamplesMembers | src/seedcounter/common/SeedUtils.java:81-98 | the same for the whole box |
| SeedUtils.CollectSamples | src/seedcounter/common/SeedUtils.java:81-98 | the double loop collects BoxSamples |
| SeedUtils.CollectRow | src/seedcounter/common/SeedUtils.java:82-97 | the inner loop appends RowSamples |
| SeedUtils.Fill | src/seedcounter/common/SeedUtils.java:55-56 | every pixel inside the contour is set to the value, the others kept |
| SeedUtils.FilledAt | src/seedcounter/common/SeedUtils.java:55-56 | inside the contour the filled buffer holds v; elsewhere it is unchanged |
| SeedUtils.FilledTwice | src/seedcounter/common/SeedUtils.java:55-101 | filling the same contour twice leaves only the second value |
| SeedUtils.EraseKeepsZero | src/seedcounter/common/SeedUtils.java:100-101 | erasing a contour from a zero buffer leaves it zero |
| SeedUtils.Verdict | src/seedcounter/common/SeedUtils.java:103-112 | definition of the fill-ratio and percentile test; properties in SeedUtils.VerdictMeaning and VerdictAllOrNothing |
| SeedUtils.VerdictMeaning | src/seedcounter/common/SeedUtils.java:103-112 | a seed survives exactly when it fills at least `threshold` of its box and the 10th percentile of its minima is at most whiteThreshold; a survivor keeps every pixel |
| SeedUtils.VerdictAllOrNothing | src/seedcounter/common/SeedUtils.java:103-112 | a verdict drops the seed or keeps every collected pixel |
| SeedUtils.SeedData | src/seedcounter/common/SeedUtils.java:53-115 | definition of getSeedData as a value; properties in SeedUtils.SeedDataAllOrNothing, SeedDataOnClearBuffer and SeedDataFromScan |
| SeedUtils.SeedDataAllOrNothing | src/seedcounter/common/SeedUtils.java:53-115 | getSeedData returns nothing or every kept pixel of the contour's box, which lies in the image |
| SeedUtils.SeedDataOnClearBuffer | src/seedcounter/common/SeedUtils.java:53-115 | on a zero buffer the kept pixels are exactly those of the box inside the contour with a positive colour sum |
| SeedUtils.SeedDataFromScan | src/seedcounter/common/SeedUtils.java:53-115 | the verdict on the scan of the box is getSeedData's result |
| SeedUtils.GetSeedData | src/seedcounter/common/SeedUtils.java:53-115 | the result is SeedData on the filled buffer, and the buffer ends erased inside the contour |
| SeedUtils.PrintedStep | src/seedcounter/common/SeedUtils.java:127-138 | a non-empty examination is appended under the next number |
| SeedUtils.Printed | src/seedcounter/common/SeedUtils.java:122-143 | definition of the records printSeeds writes; properties in SeedUtils.PrintedNumbering, PrintedStep and SeedsWritten |
| SeedUtils.PrintedNumbering | src/seedcounter/common/SeedUtils.java:127-142 | the written seeds are numbered consecutively from the start, each with one contour's data, in contour order |
| SeedUtils.ExaminationInWindow | src/seedcounter/common/SeedUtils.java:128-130 | a contour that yields data has its scaled area strictly between 5 and 30 |
| SeedUtils.ExaminedAt | src/seedcounter/common/SeedUtils.java:127-138 | entry j of the examinations is contour j's |
| SeedUtils.ExaminedStep | src/seedcounter/common/SeedUtils.java:127-138 | examining one more contour appends its examination |
| SeedUtils.ExamineContour | src/seedcounter/common/SeedUtils.java:128-136 | a contour in the window is run through getSeedData on the clear buffer, which is clear again afterwards |
| SeedUtils.PrintNext | src/seedcounter/common/SeedUtils.java:127-138 | one iteration: the examination appended, the seed written under the next number when non-empty |
| SeedUtils.SeedsWritten | src/seedcounter/common/SeedUtils.java:122-143 | every written seed is numbered consecutively, non-empty, with a scaled area in (5, 30) |
| SeedUtils.PrintSeeds | src/seedcounter/common/SeedUtils.java:122-143 | the written seeds are Printed over all examinations, and the returned number is the start plus their count |
| Clusterizer.FirstBadLabelMeaning | src/seedcounter/common/Clusterizer.java:35-37 | no bad label exactly when every label is a cluster index; the one found is the first |
| Clusterizer.FirstBadLabelStays | src/seedcounter/common/Clusterizer.java:35-37 | once found, the first bad label stays the first |
| Clusterizer.FirstBadLabel | src/seedcounter/common/Clusterizer.java:35-37 | a bad label found lies among the rows scanned |
| Clusterizer.Members | src/seedcounter/common/Clusterizer.java:35-44 | a cluster holds at most the rows scanned |
| Clusterizer.MembersCount | src/seedcounter/common/Clusterizer.java:35-44 | a cluster's count is the number of rows with its label |
| Clusterizer.AddRow | src/seedcounter/common/Clusterizer.java:39-43 | a row added to the statistics of its cluster's rows gives the statistics of those rows plus it |
| Clusterizer.LargestIn | src/seedcounter/common/Clusterizer.java:46-51 | the kept cluster has the largest count, the lowest-numbered on a tie |
| Clusterizer.Counts | src/seedcounter/common/Clusterizer.java:46-51 | one count per cluster |
| Clusterizer.OwnLabelCounted | src/seedcounter/common/Clusterizer.java:35-44 | a row with a good label is counted in its own cluster |
| Clusterizer.BackgroundVariance | src/seedcounter/common/Clusterizer.java:23-60 | definition of getBackgroundVariance as a value; properties in Clusterizer.BackgroundVarianceOutcome and BackgroundVarianceIsChannelVariances |
| Clusterizer.BackgroundVarianceOutcome | src/seedcounter/common/Clusterizer.java:23-60 | a bad label fails at the first one; NoClusters exactly with no clusters and no rows; NaN exactly with clusters but no rows; a value exactly when there are rows and every label is a cluster |
| Clusterizer.MomentByChannels | src/seedcounter/common/Clusterizer.java:39-41 | the second moment is the sum over the channels of each channel's squares |
| Clusterizer.ColumnSquaresAppend | src/seedcounter/common/Clusterizer.java:39-40 | a row appended adds its squares, channel by channel |
| Clusterizer.ChannelVariancesSplit | src/seedcounter/common/Clusterizer.java:53-57 | mean square less squared means is the sum of the channel variances |
| Clusterizer.ChannelVariancesNonNegative | src/seedcounter/common/Clusterizer.java:53-57 | each channel variance is at least zero, so their sum is |
| Clusterizer.BackgroundVarianceIsChannelVariances | src/seedcounter/common/Clusterizer.java:23-60 | the background variance is the sum of the largest cluster's channel variances and never negative |
| Clusterizer.SquaredMeansAgree | src/seedcounter/common/Clusterizer.java:55-57 | squared means agree when the sums agree on the channels they cover |
| Clusterizer.ClusteringSamples | src/seedcounter/common/Clusterizer.java:89-94 | one sample per pixel, rows one after another |
| Clusterizer.ClusteringSamplesAt | src/seedcounter/common/Clusterizer.java:89-94 | pixel (y, x) is sample y * cols + x |
| Clusterizer.ReshapeRoundTrip | src/seedcounter/common/Clusterizer.java:82-94 | reshaping the clustering samples gives back the image |
| Clusterizer.ReshapeAt | src/seedcounter/common/Clusterizer.java:82 | pixel (y, x) of a reshaped image is sample y * cols + x |
| Clusterizer.Reshape | src/seedcounter/common/Clusterizer.java:82 | the reshaped image has the requested size |
| Clusterizer.Substituted | src/seedcounter/common/Clusterizer.java:74-78 | one centroid per sample row |
| Clusterizer.Segmented | src/seedcounter/common/Clusterizer.java:69-86 | definition of getBackgroundSegmentation as a value; properties in Clusterizer.SegmentedMeaning |
| Clusterizer.SegmentedMeaning | src/seedcounter/common/Clusterizer.java:69-86 | the segmentation keeps the size and paints pixel (y, x) with its label's centroid; it fails exactly on a bad label |
| Clusterizer.NewStats | src/seedcounter/common/Clusterizer.java:24-33 | one zero map per cluster: the statistics of no rows |
| Clusterizer.AddToCluster | src/seedcounter/common/Clusterizer.java:39-43 | squares join the second moment, values their channel sums, the count grows by one |
| Clusterizer.AccumulateStep | src/seedcounter/common/Clusterizer.java:35-44 | a row joins the map of its label, every other map keeps its rows |
| Clusterizer.Accumulate | src/seedcounter/common/Clusterizer.java:35-44 | every map summarises its cluster's rows, or the first bad label is reported |
| Clusterizer.CountsOf | src/seedcounter/common/Clusterizer.java:46-51 | the counts of the maps in cluster order |
| Clusterizer.LargestIndex | src/seedcounter/common/Clusterizer.java:46-51 | the scan keeps a later map only with a strictly larger count |
| Clusterizer.VarianceOfLargest | src/seedcounter/common/Clusterizer.java:46-57 | the kept map gives the background variance; a zero count is NaN |
| Clusterizer.LargestVariance | src/seedcounter/common/Clusterizer.java:53-57 | second moment over count less each channel's squared mean |
| Clusterizer.Clusterizer.constructor | src/seedcounter/common/Clusterizer.java:15-17 | stores the number of clusters |
| Clusterizer.Clusterizer.GetBackgroundVariance | src/seedcounter/common/Clusterizer.java:23-60 | the method's result is BackgroundVariance |
| Clusterizer.Clusterizer.GetBackgroundSegmentation | src/seedcounter/common/Clusterizer.java:69-86 | the method's result is Segmented |
| Experiments.IndexFromMeaning | src/seedcounter/examples/SeedDatasetClustering.java:148-149 | the search finds an occurrence from a position exactly when there is one, and the first one |
| Experiments.ContainsMeaning | src/seedcounter/examples/SeedDatasetClustering.java:148-149 | `contains` holds exactly when the text occurs |
| Experiments.FileTypeOf | src/seedcounter/examples/SeedDatasetClustering.java:145-158 | definition of fileType; properties in Experiments.FileTypeMeaning |
| Experiments.FileTypeMeaning | src/seedcounter/examples/SeedDatasetClustering.java:145-158 | an experiment is a .jpg containing "exp" and not "label"; four classes when it starts with "class1_class2_class3_class4", else two |
| Experiments.IsChartPhoto | src/seedcounter/examples/SeedDatasetClustering.java:68-70 | definition of isCC; properties in Experiments.IsChartPhotoMeaning |
| Experiments.IsChartPhotoMeaning | src/seedcounter/examples/SeedDatasetClustering.java:68-70 | a chart photograph's name contains "_cc_" |
| Experiments.Digit | src/seedcounter/examples/SeedDatasetClustering.java:178-180 | a digit read is in 0..9 |
| Experiments.DigitMeaning | src/seedcounter/examples/SeedDatasetClustering.java:178-180 | the digit is read back exactly; a missing index or a non-digit is an error naming its cause |
| Experiments.BordersOrdered | src/seedcounter/examples/SeedDatasetClustering.java:182-192 | 0 <= first border <= second border <= cols and 0 <= row border <= rows |
| Experiments.ChartRegion | src/seedcounter/examples/SeedDatasetClustering.java:72-76 | the chart strip, all rows and columns [0, 4 cols / 10), lies in the image |
| Experiments.ChartStripCoversFirstBorder | src/seedcounter/examples/SeedDatasetClustering.java:52-76 | the first seed column starts before the chart strip ends |
| Experiments.Classes | src/seedcounter/examples/SeedDatasetClustering.java:78-101 | definition of getClasses; properties in Experiments.ClassesKeys |
| Experiments.ClassesKeys | src/seedcounter/examples/SeedDatasetClustering.java:78-101 | four classes are 1..4; two classes are the two digits, or the first bad digit's error; other files an empty map; every part lies in the image |
| Experiments.XOffset | src/seedcounter/examples/SeedDatasetClustering.java:103-120 | definition of xOffset; properties in Experiments.OffsetsAreRegionCorners, EqualDigitsOffsetMismatch and OtherFilesRefused |
| Experiments.YOffset | src/seedcounter/examples/SeedDatasetClustering.java:122-135 | definition of yOffset; properties in Experiments.OffsetsAreRegionCorners and OtherFilesRefused |
| Experiments.OffsetsAreRegionCorners | src/seedcounter/examples/SeedDatasetClustering.java:103-135 | xOffset and yOffset are the corner of the class's part, when two class digits differ |
| Experiments.EqualDigitsOffsetMismatch | src/seedcounter/examples/SeedDatasetClustering.java:78-120 | with equal digits the class keeps the right part but its x offset is the first border |
| Experiments.OtherFilesRefused | src/seedcounter/examples/SeedDatasetClustering.java:103-135 | a file that is no experiment has no offsets: both are errors |
| Experiments.A4Scale | src/seedcounter/examples/SeedDatasetClustering.java:261 | the A4 scale exists exactly for a non-empty image and is positive |
| Experiments.A4ScaleCoversSheet | src/seedcounter/examples/SeedDatasetClustering.java:261 | the scale times the pixel count is the visible sheet area (297 / 0.8) (210 / 0.85) |
| Experiments.ChartDecision | src/seedcounter/examples/SeedDatasetClustering.java:261-283 | definition of the chart-or-A4 decision; properties in Experiments.ChartDecisionMeaning |
| Experiments.ChartDecisionMeaning | src/seedcounter/examples/SeedDatasetClustering.java:261-283 | the chart is used exactly for a chart photograph whose quad covers under a quarter of the strip and deviates at most 25; the scale is then the chart's, else the A4 one |
| Experiments.RatioBelow | src/seedcounter/examples/SeedDatasetClustering.java:268 | a / b / c < t exactly when a < t (b c) |
| SeedClassifiers.ValuesDistinct | src/seedcounter/examples/SeedClassifier.java:180-195 | the four colours have four different names |
| SeedClassifiers.Reds | src/seedcounter/examples/SeedClassifier.java:47-51 | the red channel of every pixel |
| SeedClassifiers.Greens | src/seedcounter/examples/SeedClassifier.java:47-51 | the green channel of every pixel |
| SeedClassifiers.Blues | src/seedcounter/examples/SeedClassifier.java:47-51 | the blue channel of every pixel |
| SeedClassifiers.ChannelArrays | src/seedcounter/examples/SeedClassifier.java:42-51 | fresh arrays holding the red, green and blue channels of every pixel |
| SeedClassifiers.Feature | src/seedcounter/examples/SeedClassifier.java:53-60 | the feature is (median blue, median green, median red) |
| SeedClassifiers.Label | src/seedcounter/examples/SeedClassifier.java:66-74 | definition of the label decision; properties in SeedClassifiers.LabelIsBestPositive |
| SeedClassifiers.Classify | src/seedcounter/examples/SeedClassifier.java:41-75 | definition of classifySingleSeed: the label of the median feature; properties in SeedClassifiers.Feature and LabelIsBestPositive |
| SeedClassifiers.LabelIsBestPositive | src/seedcounter/examples/SeedClassifier.java:66-74 | the label is the highest-priority colour whose SVM score is positive (white, purple, red), else Unknown |
| SeedClassifiers.Labels | src/seedcounter/examples/SeedClassifier.java:85-90 | the labels of the eligible candidates, in order |
| SeedClassifiers.Tally | src/seedcounter/examples/SeedClassifier.java:85-106 | definition of the counters; properties in SeedClassifiers.TallyCountsLabels, IneligibleIgnored and NoScaleNoVerdict |
| SeedClassifiers.TallyCountsLabels | src/seedcounter/examples/SeedClassifier.java:85-106 | each count is the number of eligible seeds with that label |
| SeedClassifiers.BumpCounted | src/seedcounter/examples/SeedClassifier.java:92-102 | one more label keeps the counters counting the labels |
| SeedClassifiers.Verdict | src/seedcounter/examples/SeedClassifier.java:110-118 | definition of the final comparison; properties in SeedClassifiers.VerdictIsStrictMajority and VerdictUnknownOnTie |
| SeedClassifiers.VerdictIsStrictMajority | src/seedcounter/examples/SeedClassifier.java:110-118 | a colour wins exactly when its count exceeds each other count |
| SeedClassifiers.VerdictUnknownOnTie | src/seedcounter/examples/SeedClassifier.java:110-118 | Unknown exactly when two colours tie at the largest count; no seeds gives Unknown |
| SeedClassifiers.ClassifySeeds | src/seedcounter/examples/SeedClassifier.java:77-119 | the loop's verdict is Verdict(Tally) over the candidates |
| SeedClassifiers.IneligibleIgnored | src/seedcounter/examples/SeedClassifier.java:86-89 | candidates outside the area window or without pixels do not change the verdict |
| SeedClassifiers.Kept | src/seedcounter/examples/SeedClassifier.java:86-89 | the eligible candidates, in order |
| SeedClassifiers.NoScaleNoVerdict | src/seedcounter/examples/SeedClassifier.java:86-87 | without a finite scale no seed is eligible and the verdict is Unknown |

## Left out

- OpenCV, Apache Commons Math and the JDK maths are parameters, not models: feature detection and matching, `findHomography`, `perspectiveTransform`, `getTransformedField`, `cvtColor` (BGR to Lab and to HSV), `kmeans`, `morphologyEx`, `drawContours` (which pixels a contour fills), `contourArea`, `Percentile`, `Median`, the SVMs, `Math.pow` and `Math.sqrt`, the OLS solver and the LU determinant.
- Floating point: doubles are exact reals, so rounding, overflow, NaN and infinities are absent. Where Java would produce NaN or infinity the model returns an explicit error or `None` (a cluster with no rows, a degenerate quad in `pixelArea`, a zero image size in the A4 scale).
- Numeric.Trunc: does not model the saturation of Java's `(int)` cast at the 32-bit range; the model differs only for projected corners (left, top, right, bottom of a quad from `perspectiveTransform`, which is unconstrained) or kernel sizes `(int)(1.5 / Math.sqrt(scale))` beyond plus or minus 2^31.
- The 8-bit and float32 image types: `convertTo` rounding and saturation (after calibration and after segmentation), `CV_32F` samples, and the per-channel Lab reading of an 8-bit image are not modelled; images hold exact reals.
- `Mat.release`, the memory model of `Mat` views and `DoubleBuffer.wrap` aliasing beyond one buffer and position.
- ChartLocator.FindWithMarginAsWritten: when the second pass fails, the source takes `fullImageQuad` of the crop after `image.release()` has made it 0 x 0, and so returns (0, 0), (-1, 0), (-1, -1), (0, -1) (`ChartLocator.ReleasedQuad`); since releasing is not modelled, the model returns the crop's full quad.
- `getBackgroundColor` and `fillColorChecker` (random sampling and polygon fill) and `drawSamplePoints` (drawing only).
- File and console I/O: `printSeedData`, `printMap`, `Imgcodecs`, `PrintWriter`, the drivers' `main` methods, `camera()`, `getDirectory` and `getAbsolutePath`. `printSeeds` is modelled as the list of seed records it writes.
- `Double.parseDouble(String.valueOf(x))` in the classifier is taken to return x.
- Experiments.Digit: only the ASCII digits '0'..'9' are read; `Integer.parseInt` also accepts other Unicode decimal digits. The file name is indexed by Unicode scalar values, while Java's `charAt` indexes UTF-16 code units, so the two differ when a character outside the Basic Multilingual Plane comes before the index read.
- The drivers call a four-argument `getSeedData` that `SeedUtils` does not define; the classifier's candidates (contour, collected pixels) are therefore inputs.
- Quad corners are not put in canonical order: the constructors store what they are given, so the model does the same.
- ColorCheckers.ColorChecker.constructor: the image and the two distance metrics are parameters; reading the chart raster outside the stencil area is not needed and not modelled.
- Regression.RegressionModel.constructor: one class with an order field stands for `SimpleOLS`, `SecondOrderOLS`, `ThirdOrderOLS` and `IdentityModel`; the class hierarchy is not modelled; the simple class name `getName` starts with is `Regression.ClassName` of the order.
- ColorMetric.CellColors.CalculateMetric: requires at least one pair, since the source then divides 0.0 by 0 (NaN).
- Clusterizer.Clusterizer.GetBackgroundSegmentation: the result keeps the centroid values; the final `convertTo(image.type())` is not modelled.
- HsvBinarization.Apply: takes the HSV image as input, since the BGR to HSV conversion is OpenCV's.
- `Clusterizer.clusterize` is a call to `kmeans` and is only its labels and centroids as inputs.

## Findings

| source | as written | input that shows it | evidently intended | confidence | as-written member | corrected member |
|---|---|---|---|---|---|---|
| src/seedcounter/colorchecker/ColorChecker.java:101-124 | the three pixel loops run `for (i = 0; i + channels < size; i += channels)`, so the last pixel is never converted, calibrated or converted back | a one-pixel image (size 3): the loops do not run at all and the pixel comes back uncalibrated | `i + channels <= size`, every pixel calibrated | not executed | PixelPasses.SinglePixelUnconverted | PixelPasses.AllPixelsMapped |
| src/seedcounter/colorchecker/FindColorChecker.java:66-80 | the quad found in the crop is shifted by the unclipped truncated left and top of the first quad, while the crop starts at the clipped corner | a first quad reaching to (-10, -10): the crop starts at (0, 0), but the found corner (0, 0) is moved to (-10, -10) | shift by the crop's origin, the clipped left and top (ChartLocator.FindWithMargin); the best-fit search then ranks those quads (ChartLocator.FindBestFitCorrected), while ChartLocator.FindBestFitColorChecker keeps the source's shift | not executed | ChartLocator.ShiftQuadIgnoresClipping | ChartLocator.FindWithMarginCases |

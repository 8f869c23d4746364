# Scale overlay, dynamic-volume frame arithmetic and VTI volume loading

This project models three parts of the Cornerstone3D imaging toolkit in Dafny.

- **The scale overlay tool** (`ScaleOverlayTool`) draws a ruler along one edge of a viewport. The model covers four steps:
  - choosing the ruler length: the largest of 2000…5 mm lying strictly between 20 % and 60 % of the viewport's world extent;
  - writing its label ("5 cm", "49 mm");
  - placing the bar on the canvas from the canvas size and the reduction fractions;
  - placing the two end ticks and the inner millimetre/centimetre ticks between them.
- **`generateImageFromTime`** combines the frames of a 4D (dynamic) volume into one image by SUM, SUBTRACT or AVERAGE, with its error cases. The model also covers the per-voxel helpers `_sumData`, `_avgData` and `_subData`.
- **The two example VTI volume loaders** turn a VTK image's scalar type, geometry and data into an image-volume record with Image Pixel Module bit depths (DICOM PS3.3 section C.7.6.3). They also extract the file URL from an imageId of the form `scheme:url`.

Layout:

| file | contents |
|---|---|
| `wrappers.dfy` | `Option` and `Result` |
| `strings.dfy` | what the source takes from JavaScript strings and numbers: `toString` of integers and of tenths, `indexOf`, `split`/`join` on one character, with parse-back and round-trip lemmas |
| `scale_overlay.dfy` | module `ScaleOverlay` |
| `generate_image_from_time.dfy` | module `DynamicVolume` |
| `volume_loading.dfy` | the record shared by both loaders and the imageId URL extraction |
| `vti_volume_loader.dfy` | the tools example loader |
| `cs_vti_volume_loader.dfy` | the core example loader |

JavaScript numbers are modelled as `real` and counts as `nat`. Viewport and canvas points arrive as values: the host's `worldToCanvas` and `canvasToWorld` happen outside the model.

Where the code and its description differ, the model follows the code:

- The world height of the viewport is taken from the x coordinates of the top-left and bottom-left corners (`ScaleOverlayTool.ts:198`). When that edge is vertical, a left or right ruler never finds a size (`NoVerticalScaleWhenLeftEdgeAlongY`).
- For left and right rulers the end ticks are still vertical segments, as the code writes them.
- In `computeScaleBounds` the returned width is offset by the vertical reduction, not the horizontal one. The horizontal reduction has no effect (`ScaleBoundsMirror`).
- SUM and SUBTRACT in `generateImageFromTime` use every stored frame, or the first two, whatever `frameNumbers` selects. `frameNumbers` only decides the error cases.

## Model

| member | source | states |
|---|---|---|
| Strings.NatToString | packages/tools/src/tools/ScaleOverlayTool.ts:363 | a natural number renders as a non-empty run of decimal digits with no leading zero |
| Strings.ParseNatToString | packages/tools/src/tools/ScaleOverlayTool.ts:363 | reading the digits of a rendered natural number back gives that number |
| Strings.NatToStringInjective | packages/tools/src/tools/ScaleOverlayTool.ts:480-481 | different numbers render differently, which is what keeps tick ids apart |
| Strings.IntToString | packages/tools/src/tools/ScaleOverlayTool.ts:359-363 | an integer renders with a leading '-' exactly when it is negative |
| Strings.ParseIntToString | packages/tools/src/tools/ScaleOverlayTool.ts:359-363 | the rendering of an integer parses back to that integer |
| Strings.TenthsToString | packages/tools/src/tools/ScaleOverlayTool.ts:356-363 | t/10 renders as a bare integer exactly when t is a multiple of ten, otherwise with one decimal digit |
| Strings.ParseTenthsToString | packages/tools/src/tools/ScaleOverlayTool.ts:356-363 | the rendering of t/10 parses back to t tenths |
| Strings.IndexOfFrom | packages/tools/examples/vti3dViewport/vtiVolumeLoader.ts:28-37 | the result is -1 exactly when the substring does not occur from that position on; otherwise it is the first occurrence at or after it |
| Strings.IndexOf | packages/tools/examples/vti3dViewport/vtiVolumeLoader.ts:28-37 | the result is non-negative exactly when the substring occurs, and then it is its earliest position |
| Strings.AbsentCharNotOccurs | packages/tools/examples/vti3dViewport/vtiVolumeLoader.ts:28-37 | a type name lacking one character of a searched word does not contain that word |
| Strings.Split | packages/tools/examples/vti3dViewport/vtiVolumeLoader.ts:74 | there is at least one token and no token contains the separator |
| Strings.SplitCount | packages/tools/examples/vti3dViewport/vtiVolumeLoader.ts:74 | a split has one more token than the string has separators |
| Strings.JoinSplit | packages/tools/examples/vti3dViewport/vtiVolumeLoader.ts:74-78 | joining the tokens of a split with the same separator rebuilds the string |
| Strings.JoinCount | packages/tools/examples/vti3dViewport/vtiVolumeLoader.ts:78 | joining n tokens that hold no separator puts exactly n - 1 separators into the result (`tokens.join(':')`, as also at csvtiVolumeLoader.ts:55) |
| Strings.FirstIndex | packages/tools/examples/vti3dViewport/vtiVolumeLoader.ts:74 | the position of the first occurrence of a character |
| Strings.CharIndexOf | packages/tools/examples/vti3dViewport/vtiVolumeLoader.ts:74-78 | for a single character `indexOf` is non-negative exactly when the character is present, and then it is the first position, `FirstIndex` |
| Strings.SplitHead | packages/tools/examples/vti3dViewport/vtiVolumeLoader.ts:74-77 | the first token is the text before the first separator, or the whole string when there is none |
| Strings.JoinSplitTail | packages/tools/examples/vti3dViewport/vtiVolumeLoader.ts:74-78 | dropping the first token and rejoining gives everything after the first separator, or "" when there is none |
| ScaleOverlay.WorldWidth | packages/tools/src/tools/ScaleOverlayTool.ts:197 | the world width of the viewport is never negative |
| ScaleOverlay.WorldHeight | packages/tools/src/tools/ScaleOverlayTool.ts:198 | the world height (taken from x coordinates) is never negative |
| ScaleOverlay.ExtentIsRigid | packages/tools/src/tools/ScaleOverlayTool.ts:197-198 | both extents are unchanged when the viewport corners are translated; the width is unchanged when left and right corners swap |
| ScaleOverlay.FilterFitting | packages/tools/src/tools/ScaleOverlayTool.ts:380-391 | keeps exactly the candidates that fit and preserves their descending order |
| ScaleOverlay.ComputeScaleSize | packages/tools/src/tools/ScaleOverlayTool.ts:373-395 | the result is a candidate size strictly between 0.2 and 0.6 of the extent along the ruler's edge and the largest such; there is none exactly when no candidate fits |
| ScaleOverlay.ScaleSizeForWideView | packages/tools/src/tools/ScaleOverlayTool.ts:373-395 | a 300 mm wide viewport gets a 100 mm top ruler |
| ScaleOverlay.NoVerticalScaleWhenLeftEdgeAlongY | packages/tools/src/tools/ScaleOverlayTool.ts:198 | when the left edge is vertical in world x, a left or right ruler has zero extent and no size |
| ScaleOverlay.TextLines | packages/tools/src/tools/ScaleOverlayTool.ts:352-366 | one label line ending in " cm" exactly when the size is at least 50 mm, otherwise in " mm" |
| ScaleOverlay.TextLinesReadBack | packages/tools/src/tools/ScaleOverlayTool.ts:352-366 | reading the label back in millimetres, with cm counted as ten mm, gives the scale size: the unit switch loses nothing |
| ScaleOverlay.TextLinesExamples | packages/tools/src/tools/ScaleOverlayTool.ts:352-366 | 50 reads "5 cm", 49 "49 mm", 1000 "100 cm", 25 "25 mm" |
| ScaleOverlay.Margin | packages/tools/src/tools/ScaleOverlayTool.ts:543-544 | a reduction fraction in [0,1] of min(1000, dimension) lies between 0 and the dimension; a non-negative fraction never gives more than that fraction of 1000 px |
| ScaleOverlay.ComputeScaleBounds | packages/tools/src/tools/ScaleOverlayTool.ts:537-566 | a top bar sits one margin below the top edge and a bottom bar one margin above the bottom edge; the margin is the vertical fraction of min(1000, canvas height); the width is the canvas width shifted by that margin |
| ScaleOverlay.ScaleBoundsMirror | packages/tools/src/tools/ScaleOverlayTool.ts:537-566 | top and bottom placements mirror each other about the canvas; the horizontal fraction does not matter; the margin is capped at 1000 px |
| ScaleOverlay.ScaleBoundsOnCanvas | packages/tools/src/tools/ScaleOverlayTool.ts:537-566 | with a vertical fraction in [0,1] a top or bottom bar lies on the canvas |
| ScaleOverlay.ComputeCanvasScaleCoordinates | packages/tools/src/tools/ScaleOverlayTool.ts:513-528 | the bar is horizontal at the bound's height, centred on the canvas, and as long as the projected ruler |
| ScaleOverlay.ComputeEndScaleTicks | packages/tools/src/tools/ScaleOverlayTool.ts:402-445 | end ticks exist exactly for a recognised location; they are 10 px vertical segments anchored at the two ends of the bar |
| ScaleOverlay.EndTickReach | packages/tools/src/tools/ScaleOverlayTool.ts:402-440 | an end tick reaches 10 px from the bar for every recognised location and 0 otherwise; it points down the canvas (+y) exactly for top and right |
| ScaleOverlay.EndTicksMirror | packages/tools/src/tools/ScaleOverlayTool.ts:402-445 | top and bottom ticks start at the same bar ends and reach equally far to opposite sides; left ticks are the bottom ticks reversed and right ticks the top ticks reversed |
| ScaleOverlay.Subdivisions | packages/tools/src/tools/ScaleOverlayTool.ts:459-463 | `numberSmallTicks` is a tenth of the ruler length from 50 mm up, otherwise the length itself |
| ScaleOverlay.InnerTickCount | packages/tools/src/tools/ScaleOverlayTool.ts:459-467 | the loop count is the least natural at or above `numberSmallTicks - 1` |
| ScaleOverlay.TickSpacing | packages/tools/src/tools/ScaleOverlayTool.ts:465 | `numberSmallTicks` spacings cover exactly the distance from the left end tick to the right one |
| ScaleOverlay.InnerTick | packages/tools/src/tools/ScaleOverlayTool.ts:468-501 | an inner tick starts on the left end tick's row and is shifted along x by the same amount at both ends, so it stays parallel to the end ticks |
| ScaleOverlay.TickId | packages/tools/src/tools/ScaleOverlayTool.ts:480 | a tick id is the annotation UID, then "-tick", then the decimal digits of the index |
| ScaleOverlay.TickUid | packages/tools/src/tools/ScaleOverlayTool.ts:481 | a tick UID is "tick" followed by the decimal digits of the index |
| ScaleOverlay.TickLoopBound | packages/tools/src/tools/ScaleOverlayTool.ts:459-467 | the loop test `i < numberSmallTicks - 1` on the real quotient holds exactly for the first InnerTickCount indices |
| ScaleOverlay.CandidateTickCounts | packages/tools/src/tools/ScaleOverlayTool.ts:459-467 | for every candidate size the subdivision count is whole, e.g. 9 inner ticks for 100 mm and 24 for 25 mm |
| ScaleOverlay.ComputeInnerScaleTicks | packages/tools/src/tools/ScaleOverlayTool.ts:447-505 | one id, UID and segment per inner tick, numbered from 0; each segment is the tick the location and index call for |
| ScaleOverlay.TickIdsDistinct | packages/tools/src/tools/ScaleOverlayTool.ts:480-481 | different tick indices get different ids and UIDs |
| ScaleOverlay.FirstInnerTickOneSpacing | packages/tools/src/tools/ScaleOverlayTool.ts:459-479 | whenever there is an inner tick the ruler has more than one subdivision, and the first inner tick is one spacing from the left end tick |
| ScaleOverlay.InnerTicksEvenlySpaced | packages/tools/src/tools/ScaleOverlayTool.ts:465-479 | consecutive inner ticks are exactly one spacing apart |
| ScaleOverlay.LastInnerTickOneSpacing | packages/tools/src/tools/ScaleOverlayTool.ts:459-479 | for every candidate size the last inner tick is one spacing short of the right end tick, so the ticks divide the bar evenly |
| ScaleOverlay.StepsStrictlyBetween | packages/tools/src/tools/ScaleOverlayTool.ts:465-479 | fewer than n steps of an n-th of the way from one end tick to the other stay strictly between them |
| ScaleOverlay.ScaledInside | packages/tools/src/tools/ScaleOverlayTool.ts:468-479 | a proper fraction of a span lies strictly inside it |
| ScaleOverlay.FractionInside | packages/tools/src/tools/ScaleOverlayTool.ts:468-479 | a count below the subdivision total is a proper fraction of it |
| ScaleOverlay.InnerTicksStrictlyBetween | packages/tools/src/tools/ScaleOverlayTool.ts:465-479 | every inner tick lies strictly between the two end ticks |
| ScaleOverlay.RulerTickLengths | packages/tools/src/tools/ScaleOverlayTool.ts:482-501 | every fifth inner tick is as long as the end ticks, the others half that on the same side, and all start on the bar |
| ScaleOverlay.RulerTicksInsideBar | packages/tools/src/tools/ScaleOverlayTool.ts:447-528 | for a placed bar every inner tick starts on the bar strictly between its ends |
| DynamicVolume.Combined | packages/tools/src/utilities/dynamicVolume/generateImageFromTime.ts:24-57 | the combined image has one value per voxel of the first frame |
| DynamicVolume.Frames | packages/tools/src/utilities/dynamicVolume/generateImageFromTime.ts:16-18 | the frames are the given frame numbers when there are any, else 0 .. numTimePoints - 1 in order |
| DynamicVolume.Precheck | packages/tools/src/utilities/dynamicVolume/generateImageFromTime.ts:20-43 | too few time points is raised exactly when at most one frame is selected; too many only for SUBTRACT with more than two; passing the checks means at least two frames, some scalar data, and for SUBTRACT exactly two frames and a second array whenever voxels are read |
| DynamicVolume.ColumnSumNonNegative | packages/tools/src/utilities/dynamicVolume/generateImageFromTime.ts:29-36 | the SUM loop's value at a voxel (`ColumnSum`, the sum of line 33 over the frames) is non-negative when that voxel is non-negative in every frame |
| DynamicVolume.RunningAverage | packages/tools/src/utilities/dynamicVolume/generateImageFromTime.ts:51-54 | for non-negative data the AVERAGE loop's running value at the last voxel lies between 0 and that voxel's plain sum |
| DynamicVolume.SeriesSumNonNegative | packages/tools/src/utilities/dynamicVolume/generateImageFromTime.ts:96-99 | the `voxelSum` of a series (`SeriesSum`) is non-negative when its samples are |
| DynamicVolume.GenerateImageFromTime | packages/tools/src/utilities/dynamicVolume/generateImageFromTime.ts:4-90 | with one or no selected frame the call fails; SUBTRACT with more than two selected frames fails; a volume without the frames read fails; otherwise the array holds the sum, the difference of the first two frames, the average as written, or zeros for an unknown operation |
| DynamicVolume.AddAllFrames | packages/tools/src/utilities/dynamicVolume/generateImageFromTime.ts:29-36 | the SUM loops leave every voxel holding its sum over all frames |
| DynamicVolume.SubtractSecondFromFirst | packages/tools/src/utilities/dynamicVolume/generateImageFromTime.ts:42-44 | the SUBTRACT loop leaves every voxel holding the first frame minus the second |
| DynamicVolume.AverageAsWrittenLoops | packages/tools/src/utilities/dynamicVolume/generateImageFromTime.ts:47-57 | the AVERAGE loops leave the combined image as written: sums everywhere but the last voxel, which holds the running per-frame division |
| DynamicVolume.AverageAsWritten | packages/tools/src/utilities/dynamicVolume/generateImageFromTime.ts:47-57 | AVERAGE leaves every voxel but the last equal to the SUM; the last is a running value divided by the frame count after each frame; any other operation leaves zeros |
| DynamicVolume.MeanImage | packages/tools/src/utilities/dynamicVolume/generateImageFromTime.ts:47-57 | the voxel-wise mean has one value per voxel |
| DynamicVolume.AverageAsWrittenWitness | packages/tools/src/utilities/dynamicVolume/generateImageFromTime.ts:47-57 | two frames of ones average to [2, 0.75] as written, while their mean is [1, 1] |
| DynamicVolume.ColumnSumOfCopies | packages/tools/src/utilities/dynamicVolume/generateImageFromTime.ts:29-36 | summing k copies of a frame gives k times each voxel |
| DynamicVolume.MeanOfIdenticalFrames | packages/tools/src/utilities/dynamicVolume/generateImageFromTime.ts:47-57 | the mean of identical frames is that frame |
| DynamicVolume.AverageFrames | packages/tools/src/utilities/dynamicVolume/generateImageFromTime.ts:47-57 | the corrected AVERAGE loop yields the voxel-wise mean of the frames |
| DynamicVolume.Sums | packages/tools/src/utilities/dynamicVolume/generateImageFromTime.ts:92-110 | one sum per voxel for per-voxel data, a single sum for one voxel's samples |
| DynamicVolume.SumFirst | packages/tools/src/utilities/dynamicVolume/generateImageFromTime.ts:96-100 | the inner loop adds up the first `frames.length` samples of a series |
| DynamicVolume.SumData | packages/tools/src/utilities/dynamicVolume/generateImageFromTime.ts:92-110 | `_sumData` gives each voxel's sum over as many samples as there are frames |
| DynamicVolume.AvgData | packages/tools/src/utilities/dynamicVolume/generateImageFromTime.ts:112-130 | `_avgData` gives each voxel's sum divided by the frame count |
| DynamicVolume.Differences | packages/tools/src/utilities/dynamicVolume/generateImageFromTime.ts:132-146 | one difference per voxel for per-voxel data, a single one otherwise |
| DynamicVolume.SubData | packages/tools/src/utilities/dynamicVolume/generateImageFromTime.ts:132-146 | more than two frames is an error; otherwise each voxel's first sample minus its second |
| DynamicVolume.PerVoxelSeries | packages/tools/src/utilities/dynamicVolume/generateImageFromTime.ts:92-101 | the per-voxel layout has one series per voxel with one sample per frame |
| DynamicVolume.SeriesSumIsColumnSum | packages/tools/src/utilities/dynamicVolume/generateImageFromTime.ts:92-101 | summing a voxel's series equals summing that voxel across the frames |
| DynamicVolume.HelpersAgreeWithCombined | packages/tools/src/utilities/dynamicVolume/generateImageFromTime.ts:92-146 | on all frames, `_sumData` equals SUM, `_avgData` equals the true mean, and `_subData` on two frames equals SUBTRACT |
| VolumeLoading.AfterScheme | packages/tools/examples/vti3dViewport/vtiVolumeLoader.ts:74-78 | the URL is what follows the first ':' of the imageId, later colons kept; "" when there is no ':'. The colon is found with the same `indexOf` search (`Strings.IndexOf`) as the type tests |
| VolumeLoading.AfterFirstColon | packages/tools/examples/vti3dViewport/vtiVolumeLoader.ts:74-78 | the URL starts right after the first ':' of the imageId, found by the same `indexOf` search as the type tests |
| VolumeLoading.UrlFromImageId | packages/tools/examples/vti3dViewport/vtiVolumeLoader.ts:74-78 | split, shift and join give exactly the text after the scheme, and scheme + ":" + url rebuilds the imageId |
| VolumeLoading.SecondaryCaptureMetadata | packages/tools/examples/vti3dViewport/vtiVolumeLoader.ts:39-53 | the metadata literal carries the given bit depths, spacing, columns and rows, and the fixed secondary-capture attributes (orientation, one sample per pixel, MONOCHROME2, modality SC); the other loader writes the same literal at csvtiVolumeLoader.ts:17-31 |
| VtiVolumeLoader.BitsStoredFor | packages/tools/examples/vti3dViewport/vtiVolumeLoader.ts:24-37 | bits stored is 0, 8, 16 or 32: 8 exactly when the type name holds "int8", 16 exactly when it holds "16" but not "int8", 32 exactly when it holds "32" but neither earlier word |
| VtiVolumeLoader.CreateImageVolume | packages/tools/examples/vti3dViewport/vtiVolumeLoader.ts:13-68 | bits stored is 8, 16, 32 by the first of "int8", "16", "32" in the type name, else 0; high bit one below bits stored (0 when none); bits allocated equals bits stored; columns and rows are the first two dimensions; the byte size is the floor of samples times bits over 8; geometry and data pass through |
| VtiVolumeLoader.UnsignedByteTypeGets8Bits | packages/tools/examples/vti3dViewport/vtiVolumeLoader.ts:28-30 | Uint8Array gets 8 bits |
| VtiVolumeLoader.SignedByteTypeGetsNoBits | packages/tools/examples/vti3dViewport/vtiVolumeLoader.ts:24-37 | Int8Array matches no test and gets 0 bits and 0 bytes |
| VtiVolumeLoader.IntendedBitsStored | packages/tools/examples/vti3dViewport/vtiVolumeLoader.ts:28-37 | the corrected depth agrees with the code whenever the name lacks "Int8", and is always 0, 8, 16 or 32 |
| VtiVolumeLoader.IntendedBitsForByteTypes | packages/tools/examples/vti3dViewport/vtiVolumeLoader.ts:28-30 | under the corrected depth both byte types get 8 bits and other types keep theirs |
| VtiVolumeLoader.ShortTypesGet16Bits | packages/tools/examples/vti3dViewport/vtiVolumeLoader.ts:31-33 | Uint16Array and Int16Array get 16 bits |
| VtiVolumeLoader.WordTypesGet32Bits | packages/tools/examples/vti3dViewport/vtiVolumeLoader.ts:34-36 | Uint32Array and Int32Array get 32 bits |
| VtiVolumeLoader.FloatTypeGets32Bits | packages/tools/examples/vti3dViewport/vtiVolumeLoader.ts:34-36 | Float32Array gets 32 bits |
| VtiVolumeLoader.DoubleTypeGetsNoBits | packages/tools/examples/vti3dViewport/vtiVolumeLoader.ts:24-37 | Float64Array gets 0 bits and a volume of 0 bytes |
| VtiVolumeLoader.LoaderUrl | packages/tools/examples/vti3dViewport/vtiVolumeLoader.ts:70-109 | the URL of the first imageId; with no imageId the load is rejected |
| CsVtiVolumeLoader.CreateImageVolume | packages/core/examples/vtiVolumeLoader/csvtiVolumeLoader.ts:5-44 | a volume exactly for type "Uint8Array": 8 bits allocated and stored, high bit 7, one sample per pixel, one byte per sample, columns and rows from the dimensions; nothing for any other type |
| CsVtiVolumeLoader.AgreesWithToolsLoader | packages/core/examples/vtiVolumeLoader/csvtiVolumeLoader.ts:16-41 | for Uint8Array this loader builds the same volume as the tools example loader |
| CsVtiVolumeLoader.LoaderUrl | packages/core/examples/vtiVolumeLoader/csvtiVolumeLoader.ts:46-81 | the URL of `options.imageIds[0]`; with no options, no imageIds or an empty list the load is rejected |

## Left out

- Drawing: SVG rendering of the bar, ticks and text, the annotation bookkeeping, the tool's lifecycle handlers, and viewport and camera lookup. These are host rendering and event plumbing.
- `worldToCanvas` and `canvasToWorld`: their results enter as point values.
- ScaleOverlay.ComputeScaleBounds and ScaleOverlay.ComputeInnerScaleTicks: both require a top or bottom ruler (`Horizontal`). For a left or right ruler `computeScaleBounds` throws a TypeError: `canvasBounds` has only top and bottom keys (ScaleOverlayTool.ts:549-552) and is indexed by the location at line 563, and `renderAnnotation` calls it at line 202, before anything is drawn. `computeInnerScaleTicks` would give NaN tick coordinates there, because the left and right entries of `locationOffset` are flat pairs (lines 477-478), while it still pushes the ids and UIDs.
- Floating point: JavaScript doubles and the `Float32Array` result are modelled as exact reals, so rounding is not captured.
- Strings.TenthsToString: exponent notation of numbers of 1e21 and above is not modelled; the scale sizes stay far below it.
- DynamicVolume.SumData, DynamicVolume.AvgData and DynamicVolume.SubData: reading past the end of a series (NaN in JavaScript) and division by zero frames are excluded by their requires.
- The mask and image-coordinate branches of `generateImageFromTime`, which are commented out, and `getDataInTime`, which is not part of this model.
- Reading the VTI file: the XML reader, the fetch, the Promise and the cache registration. Only the URL passed to the reader and the record built from the decoded image are modelled.
- Console logging.

## Findings

| source | as written | input that shows it | evidently intended | confidence | as-written member | corrected member |
|---|---|---|---|---|---|---|
| packages/tools/src/utilities/dynamicVolume/generateImageFromTime.ts:47-57 | AVERAGE adds every frame, then divides only the last voxel, once after each frame | two frames of ones, each two voxels long: the result is [2, 0.75] | each voxel divided once by the number of frames, giving [1, 1] | high, not executed | DynamicVolume.AverageAsWrittenWitness | DynamicVolume.AverageFrames |
| packages/tools/examples/vti3dViewport/vtiVolumeLoader.ts:28 | the byte-type test `indexOf('int8')` is case-sensitive | type "Int8Array": bits stored 0, high bit 0, size 0 bytes | 8 bits for signed bytes as for unsigned ones | medium, not executed | VtiVolumeLoader.SignedByteTypeGetsNoBits | VtiVolumeLoader.IntendedBitsForByteTypes |

# ProCamTracker tracking core, modelled in Dafny

ProCamTracker drives a camera and a projector. A Gauss-Newton image aligner
follows a textured surface in the camera frames. Content is then projected
onto that surface, warped to where the surface is. This project models the
bookkeeping the repository itself does around the aligner. It covers three
revisions of the tracking worker (`org.bytedeco`, `com.googlecode.javacv`,
`name.audet`), the reality augmentor of the `com.googlecode.javacv`
revision, and the chronometer overlays.

- **Parameter vector.** Where the gain and ambient-light entries are written
  at start-up. How that slice is reset when an entry leaves [0, 2].
- **Per-frame audit.** The aligner switches back to the previous frame's
  parameters when their RMSE is lower. The oldest revision also has a
  hysteresis level.
- **Lost-track rules.** The lost-track counter that fires on the second bad
  frame in a row, and the RMSE guard of the `javacv` revision.
- **Iteration loop.** The time-budgeted loop and its per-level counts, and
  the restart loop of `doInBackground`.
- **Projector images.**
  - The buffer ring of the newest revision: filled once, then composed at
    offset 0, shown at -1 and fed to the transformer at +1 before the
    position advances.
  - The 0/1 double buffer of the older revisions.
- **Dirty rectangle.** The bounding box of the warped corners, padded,
  clamped and aligned to 16 pixels; the oldest revision does not clamp the
  rounded-up right edge again. Its union with the previous rectangle of the
  same image.
- **Pixel work.**
  - The integer alpha blend of an overlay into a video frame.
  - The scan for the overlay's visible region.
  - The float-to-byte monitor image.
  - Each is modelled as the source writes it, in exact arithmetic (the
    monitor image's float product and rounding are listed under "Left
    out"). Where that departs from what is evidently intended, a
    corrected definition is proved beside it (see "Findings").
- **Augmentor selection.** Which object and which virtual content are
  active: region acquisition, hot-spot clicks, and `needsHandMouse`. Making
  content active initialises it, which throws when its projector image
  file does not load.
- **Chronometers.** The time split into minutes, seconds and deciseconds,
  the start-time latch, and the anchoring of negative offsets.

The aligner is an oracle. Each `iterate` call is given the outcome it
reports. The RMSE is a table from (parameters, level) to a Java double,
where NaN is possible. The following are also inputs:

- the camera grabs;
- the warped corner positions;
- whether each region of interest is found;
- the clock;
- the frame at which the worker is found cancelled.

Java's `int` wrap-around, truncating division, `Math.round`, `Math.floor`
and `Math.ceil` are written out in `JavaNumbers`.

## Model

| member | source | states |
|---|---|---|
| Geometry.Union | src/com/googlecode/javacv/procamtracker/RealityAugmentor.java:762-765 | `maxroi` spans both rectangles and each of its edges is an edge of one of them |
| Geometry.UnionIsSmallest | src/com/googlecode/javacv/procamtracker/RealityAugmentor.java:762-765 | any rectangle spanning both also spans their union, so the union is the smallest |
| Geometry.UnionCommutes | src/name/audet/samuel/procamtracker/TrackingWorker.java:496-499 | the union does not depend on the argument order |
| Geometry.AwtContainsHalfOpen | src/com/googlecode/javacv/procamtracker/RealityAugmentor.java:714 | away from int overflow, `Rectangle.contains` is half-open membership of a non-negative rectangle |
| Geometry.CvRect.constructor | src/name/audet/samuel/procamtracker/TrackingWorker.java:503-506 | a new rectangle holds the given value |
| Geometry.CvRect.Set | src/com/googlecode/javacv/procamtracker/RealityAugmentor.java:769-772 | all four fields are overwritten with the new rectangle |
| Aligner.ImageAligner.constructor | src/main/java/org/bytedeco/procamtracker/TrackingWorker.java:574-578 | the aligner starts on the given parameters, level and target |
| Aligner.ImageAligner.SetParameters | src/main/java/org/bytedeco/procamtracker/TrackingWorker.java:653 | only the parameters change |
| Aligner.ImageAligner.SetPyramidLevel | src/main/java/org/bytedeco/procamtracker/TrackingWorker.java:661 | only the level changes |
| Aligner.ImageAligner.SetTargetImage | src/com/googlecode/javacv/procamtracker/TrackingWorker.java:192-194 | only the target changes, so later RMSE values are against the new frame |
| Aligner.ImageAligner.Iterate | src/main/java/org/bytedeco/procamtracker/TrackingWorker.java:608 | parameters and level become what the call reports, the target is kept |
| ParameterRules.WriteSlice | src/main/java/org/bytedeco/procamtracker/TrackingWorker.java:516-520 | the loop of `parameters.set` writes exactly the slice, and entries before and after are unchanged |
| ParameterRules.ResetSlice | src/main/java/org/bytedeco/procamtracker/TrackingWorker.java:639-654 | outside the slice nothing changes; the slice is the old one if all entries are in [0, 2], else the previous frame's |
| ParameterRules.ResetLandsInRange | src/main/java/org/bytedeco/procamtracker/TrackingWorker.java:639-654 | after a reset the slice is in [0, 2] whenever the previous frame's slice was |
| ParameterRules.ResetIdempotent | src/main/java/org/bytedeco/procamtracker/TrackingWorker.java:639-654 | a second reset against the same in-range previous parameters changes nothing |
| ParameterRules.ResetGainAmbient | src/main/java/org/bytedeco/procamtracker/TrackingWorker.java:639-654 | the scan-then-copy loops report a reset exactly when an entry is out of [0, 2], and produce `ResetSlice` |
| ParameterRules.AuditChoice | src/main/java/org/bytedeco/procamtracker/TrackingWorker.java:658-670 | the new parameters are kept exactly when their RMSE is strictly below the previous ones' (ties and NaN keep the previous) |
| ParameterRules.AuditNeverWorse | src/main/java/org/bytedeco/procamtracker/TrackingWorker.java:658-670 | the kept RMSE is the previous one or strictly smaller; between finite values it is the minimum |
| ParameterRules.LostCounterFiresOnSecondBad | src/main/java/org/bytedeco/procamtracker/TrackingWorker.java:674-682 | while no two bad frames followed each other the counter is 1 after a bad frame and 0 otherwise, so it exceeds 1 exactly on the second bad frame in a row |
| ParameterRules.LostCounterStep | src/main/java/org/bytedeco/procamtracker/TrackingWorker.java:674-682 | one more frame: the counter follows the increment/reset rule and exceeds 1 exactly when this frame is the second bad one in a row |
| ParameterRules.SumCounts | src/main/java/org/bytedeco/procamtracker/TrackingWorker.java:624-629 | the per-frame iteration count is the sum of the per-level counts |
| ParameterRules.IterateWithinBudget | src/main/java/org/bytedeco/procamtracker/TrackingWorker.java:600-629 | the loop stops at the first call that converges or takes the summed time past a positive budget; it returns the summed time, the per-level counts and their total, which equals the number of calls |
| ParameterRules.WallClockIsSummedTime | src/name/audet/samuel/procamtracker/TrackingWorker.java:810-827 | with back-to-back calls, the wall-clock time since the loop started equals the summed call times |
| ParameterRules.DeadlineMatchesBudget | src/name/audet/samuel/procamtracker/TrackingWorker.java:823-825 | with back-to-back calls, the wall-clock stop rule and the summed-time stop rule stop after the same call |
| ParameterRules.IterateUntilDeadline | src/name/audet/samuel/procamtracker/TrackingWorker.java:809-827 | the loop stops at the first call that converges or ends past `timeMax` after the loop started, counting the calls |
| ProjectorBuffers.SlotIndexShift | src/main/java/org/bytedeco/procamtracker/TrackingWorker.java:281 | slot addresses that differ by a multiple of the capacity name the same slot |
| ProjectorBuffers.SlotIndexAdvance | src/main/java/org/bytedeco/procamtracker/TrackingWorker.java:793 | advancing the position by m is the same as advancing every offset by m |
| ProjectorBuffers.RotationSlotsDistinct | src/main/java/org/bytedeco/procamtracker/TrackingWorker.java:281 | with capacity at least 3, offsets -1, 0 and +1 are three different slots |
| ProjectorBuffers.SlotIndexOfReduced | src/main/java/org/bytedeco/procamtracker/TrackingWorker.java:793 | addressing from the reduced position is addressing from the position |
| ProjectorBuffers.ComposedSlotLifecycle | src/main/java/org/bytedeco/procamtracker/TrackingWorker.java:787-793 | the slot composed at a position is shown one frame later (offset -1) and fed to the transformer capacity-1 frames later (offset +1) |
| ProjectorBuffers.BufferRing.constructor | src/main/java/org/bytedeco/procamtracker/TrackingWorker.java:541 | a ring of the given slots at position 0 |
| ProjectorBuffers.BufferRing.Index | src/main/java/org/bytedeco/procamtracker/TrackingWorker.java:342 | `get(k)` addresses a slot inside the ring |
| ProjectorBuffers.BufferRing.Get | src/main/java/org/bytedeco/procamtracker/TrackingWorker.java:787 | returns the slot `k` places from the position |
| ProjectorBuffers.BufferRing.Put | src/main/java/org/bytedeco/procamtracker/TrackingWorker.java:788-789 | writes that slot and no other |
| ProjectorBuffers.BufferRing.SetPosition | src/main/java/org/bytedeco/procamtracker/TrackingWorker.java:793 | the position becomes the new one reduced modulo the capacity |
| ProjectorBuffers.OtherSlot | src/com/googlecode/javacv/procamtracker/TrackingWorker.java:179 | `(idx+1)%2` is the other image of the double buffer |
| ProjectorBuffers.OtherSlotInvolution | src/com/googlecode/javacv/procamtracker/TrackingWorker.java:529 | two toggles come back to the first image |
| DirtyRect.CornerBounds | src/com/googlecode/javacv/procamtracker/RealityAugmentor.java:739-748 | the min/max loop, started from `Double.MAX_VALUE`/`Double.MIN_VALUE`, computes the fold `BoundsOf` |
| DirtyRect.BoundsOfEnclosesCorners | src/com/googlecode/javacv/procamtracker/RealityAugmentor.java:739-748 | every corner lies within the folded bounds |
| DirtyRect.BoundsOfAttained | src/com/googlecode/javacv/procamtracker/RealityAugmentor.java:739-748 | each bound is a corner coordinate unless it is still its initial value, which it never passes |
| DirtyRect.AlignedRoiInsideAndCovering | src/com/googlecode/javacv/procamtracker/RealityAugmentor.java:750-760 | the rectangle starts at a non-negative multiple of 16, stays inside the image, and covers the padded, clamped corner box |
| DirtyRect.DirtyRoiEnclosesCorners | src/com/googlecode/javacv/procamtracker/RealityAugmentor.java:739-760 | the dirty rectangle is 16-aligned, inside the image, and encloses every corner that lies on the image |
| DirtyRect.UnclampedRoiLeavesImage | src/name/audet/samuel/procamtracker/TrackingWorker.java:491-494 | the oldest code's right edge reaches 112 on a 100-pixel image, where the clamped rectangle stops at 100 |
| DirtyRect.UnclampedOnClampedBounds | src/name/audet/samuel/procamtracker/TrackingWorker.java:484-494 | on padded bounds the unclamped rectangle is a non-negative multiple of 16 on the left, above the bottom edge, at most 15 columns past the right edge, and the clamped rectangle is it with the right edge cut back |
| DirtyRect.UnclampedCovers | src/name/audet/samuel/procamtracker/TrackingWorker.java:484-494 | the unclamped rectangle covers every point of the padded corner box |
| DirtyRect.DirtyRoiAsWrittenBounds | src/name/audet/samuel/procamtracker/TrackingWorker.java:473-494 | the oldest worker's dirty rectangle is 16-aligned, non-negative, above the bottom edge, at most 15 columns past the right edge (none for a width that is a multiple of 16), encloses every on-image corner, and clamps to `DirtyRoi` |
| PixelBlend.BlendPixelAsWritten | src/com/googlecode/javacv/procamtracker/RealityAugmentor.java:642-656 | the fall-through blend with `a = a2 = 128` for an overlay without alpha keeps the frame's channel count |
| PixelBlend.OpaqueOverlayWrapsToBlack | src/name/audet/samuel/procamtracker/TrackingWorker.java:437-450 | as written, white over white with a 3-channel overlay stores 256 as byte 0 |
| PixelBlend.BlendPixel | src/com/googlecode/javacv/procamtracker/RealityAugmentor.java:642-656 | the corrected blend with weights `a` and `255 - a` keeps the frame's channel count |
| PixelBlend.BlendChannelIsMix | src/com/googlecode/javacv/procamtracker/RealityAugmentor.java:650-656 | over a 1 to 3 channel frame each channel mixes the matching overlay colour, chosen by fall-through |
| PixelBlend.BlendPixelExact | src/com/googlecode/javacv/procamtracker/RealityAugmentor.java:642-656 | each corrected channel is the exact weighted mean `(c*a + d*(255-a)) div 255`, with no wrap |
| PixelBlend.AlphaOverlayOnColourFrame | src/name/audet/samuel/procamtracker/TrackingWorker.java:437-450 | for a 4-channel overlay over a 3-channel frame, source and corrected blend agree, and each channel is `(src*a + dst*(255-a)) div 255` |
| PixelBlend.AsWrittenAgreesWithAlpha | src/name/audet/samuel/procamtracker/TrackingWorker.java:437-450 | whenever the overlay or the frame has an alpha channel, the blend as written equals the corrected one |
| PixelBlend.AsWrittenHalfMix | src/name/audet/samuel/procamtracker/TrackingWorker.java:437-450 | with no alpha channel on either side, each channel as written is the rounded-down mean `(c + d)*128 div 255` of overlay and frame colour, except that two full-intensity colours give 0 |
| PixelBlend.MixExact | src/com/googlecode/javacv/procamtracker/RealityAugmentor.java:653-655 | a channel mixed with weights summing to at most 255 fits a byte, so the `(byte)` cast is exact |
| PixelBlend.BlendWindow | src/com/googlecode/javacv/procamtracker/RealityAugmentor.java:629-637 | the window is the overlay's region when it has one, else the largest window at the origin that fits inside both images |
| PixelBlend.RowsVisited | src/com/googlecode/javacv/procamtracker/RealityAugmentor.java:639-640 | rows stop after `height` or at the first row past either image |
| PixelBlend.BlendRow | src/com/googlecode/javacv/procamtracker/RealityAugmentor.java:641-657 | one row: exactly the window's pixels of that row get the blend as written (`BlendPixelAsWritten`), every other pixel is unchanged |
| PixelBlend.BlendInto | src/com/googlecode/javacv/procamtracker/RealityAugmentor.java:623-660 | exactly the visited part of the window gets the blend as written, pixel by pixel; everything else in the frame is unchanged; a window starting below the images visits no row |
| AlphaRegion.ScanAlpha | src/name/audet/samuel/procamtracker/TrackingWorker.java:589-599 | the nested scan returns the extreme columns and rows of the visible pixels, each reached, or the initial extremes when none is visible |
| AlphaRegion.AlphaRoiAsWrittenDropsLastColumn | src/name/audet/samuel/procamtracker/TrackingWorker.java:600 | as written, some visible pixel of the right-most column falls outside the region |
| AlphaRegion.SinglePixelGivesEmptyRoi | src/name/audet/samuel/procamtracker/TrackingWorker.java:600 | as written, one visible pixel gives an empty region that does not cover it |
| AlphaRegion.BoundingBoxIsSmallest | src/name/audet/samuel/procamtracker/TrackingWorker.java:588-601 | any rectangle covering the visible pixels spans the bounding box |
| AlphaRegion.AlphaRoiIsBoundingBox | src/name/audet/samuel/procamtracker/TrackingWorker.java:588-601 | the corrected region covers every visible pixel, each of its edges passes through one, and it is empty when none is visible |
| AlphaRegion.AlphaRoiInsideImage | src/name/audet/samuel/procamtracker/TrackingWorker.java:588-601 | the corrected region lies inside the image |
| AlphaRegion.AsWrittenIsBoundingBoxShrunk | src/name/audet/samuel/procamtracker/TrackingWorker.java:588-600 | with a visible pixel, the region as written lies inside the image and is the corrected region less its last column and row |
| AlphaRegion.AlphaRegionOf | src/name/audet/samuel/procamtracker/TrackingWorker.java:588-601 | as written: with a visible pixel, the region is inside the image and growing it by one column and one row gives the bounding box of the visible pixels; with none, the wrapped extremes give the 1 by 1 region at (`Integer.MAX_VALUE`, `Integer.MAX_VALUE`) |
| TimeDisplay.DecomposeNonNegative | src/main/java/org/bytedeco/procamtracker/Chronometer.java:89-91 | for time ≥ 0: minutes = time div 60000, seconds in 0..59, deciseconds in 0..9, and the reading is within 100 ms below the time |
| TimeDisplay.DecomposeNegative | src/name/audet/samuel/procamtracker/ChronometerDrawer.java:56-58 | a negative time reads as the negated reading of its magnitude (truncating division) |
| TimeDisplay.NatStringDigits | src/main/java/org/bytedeco/procamtracker/Chronometer.java:97 | `Long.toString` of a natural number is one or more decimal digits |
| TimeDisplay.DigitChar | src/main/java/org/bytedeco/procamtracker/Chronometer.java:97 | the digit character stands for the digit |
| TimeDisplay.ParseNatString | src/main/java/org/bytedeco/procamtracker/Chronometer.java:97 | reading the digits back gives the number |
| TimeDisplay.SecondsStringTwoDigits | src/main/java/org/bytedeco/procamtracker/Chronometer.java:99-100 | for seconds in 0..59 the zero-padded field is exactly two digits and reads back as the seconds |
| Chronometers.AwtRectangle.constructor | src/main/java/org/bytedeco/procamtracker/Chronometer.java:45 | a rectangle with the given fields |
| Chronometers.AwtRectangle.Clone | src/main/java/org/bytedeco/procamtracker/Chronometer.java:45 | `clone()` gives a new rectangle with equal fields |
| Chronometers.Anchor | src/main/java/org/bytedeco/procamtracker/Chronometer.java:104-109 | a non-negative offset is kept; a negative one no further back than the frame extent lands inside the frame, at the same place modulo the extent |
| Chronometers.AnchorSettles | src/name/audet/samuel/procamtracker/Chronometer.java:99-104 | once anchored to a non-negative offset, later draws never move it |
| Chronometers.AnchorInFrame | src/name/audet/samuel/procamtracker/ChronometerDrawer.java:69-74 | the stored x and y are anchored in place; width and height are kept |
| Chronometers.Chronometer.constructor | src/main/java/org/bytedeco/procamtracker/Chronometer.java:44-46 | the chronometer holds a fresh copy of the caller's rectangle and the given start time |
| Chronometers.Chronometer.Unstarted | src/name/audet/samuel/procamtracker/Chronometer.java:38-40 | the one-argument constructor: a fresh copy and start time -1 |
| Chronometers.Chronometer.Draw | src/main/java/org/bytedeco/procamtracker/Chronometer.java:81-109 | the first draw latches the start time to now and shows 0; later draws show now minus start; the text is `M′SS″D`; the placement is anchored |
| Chronometers.ChronometerDrawer.constructor | src/name/audet/samuel/procamtracker/ChronometerDrawer.java:36-37 | the drawer holds a fresh copy of the caller's rectangle |
| Chronometers.ChronometerDrawer.Draw | src/name/audet/samuel/procamtracker/ChronometerDrawer.java:55-74 | shows the decomposition of the given time and anchors the placement |
| Chronometers.FirstDrawKeepsCallerRectangle | src/main/java/org/bytedeco/procamtracker/Chronometer.java:45 | a first draw moves the chronometer's own copy from x = -40 to 600 on a 640-pixel frame and shows 0, while the caller's rectangle is untouched |
| RealityAugmentor.ScanFrom | src/com/googlecode/javacv/procamtracker/RealityAugmentor.java:404-431 | the scan takes the first object found, throws at the first object whose needed image is missing, or finds none; every object before stops neither |
| RealityAugmentor.LastEmptyHotSpot | src/com/googlecode/javacv/procamtracker/RealityAugmentor.java:422-428 | activating each child with an empty hot spot in turn leaves the last one active, or none |
| RealityAugmentor.FirstHit | src/com/googlecode/javacv/procamtracker/RealityAugmentor.java:712-719 | the first child whose hot spot contains the point, and no earlier child's does |
| RealityAugmentor.MouseReading | src/com/googlecode/javacv/procamtracker/RealityAugmentor.java:692-709 | without a hand-mouse position the update uses (-1, -1) and no click; otherwise the rounded int position and the click |
| RealityAugmentor.FullCorners | src/com/googlecode/javacv/procamtracker/RealityAugmentor.java:775-776 | the fixed path's destination is the four corners of the projector image |
| RealityAugmentor.Augmentor.constructor | src/com/googlecode/javacv/procamtracker/RealityAugmentor.java:276-289 | no object and no content active, empty rectangles |
| RealityAugmentor.Augmentor.AcquireRoi | src/com/googlecode/javacv/procamtracker/RealityAugmentor.java:398-434 | the first object found becomes current; when every child with an empty hot spot has content that loads, the last of them is active and the result is true, otherwise the call throws with the first failing one active; a missing object image throws; when none is found the selection is kept; the object image is loaded afterwards as `ObjectImageAfterScan` says |
| RealityAugmentor.Augmentor.ScanObjects | src/com/googlecode/javacv/procamtracker/RealityAugmentor.java:403-433 | the object loop ends as `ScanFrom` says, and an object not picked by the user loads its image, so the object image is loaded afterwards exactly when it was before or such an object was tried, unless the last load failed |
| RealityAugmentor.Augmentor.Activate | src/com/googlecode/javacv/procamtracker/RealityAugmentor.java:419-428 | the object found becomes current; it succeeds exactly when every child with an empty hot spot has content that loads, leaving the last of them active, and otherwise stops at the first that does not load, which stays active |
| RealityAugmentor.Augmentor.NeedsHandMouse | src/com/googlecode/javacv/procamtracker/RealityAugmentor.java:677-688 | true exactly when the active content shows a desktop screen or some child has a hot spot with positive width and height |
| RealityAugmentor.Augmentor.SelectOnClick | src/com/googlecode/javacv/procamtracker/RealityAugmentor.java:711-720 | without a click the selection is unchanged; on a click that hits no child it is unchanged too; otherwise the active content is a child that is hit and no earlier child is hit |
| RealityAugmentor.Augmentor.SelectContent | src/com/googlecode/javacv/procamtracker/RealityAugmentor.java:711-720 | the click loop leaves `SelectOnClick` active, and initialising it fails exactly when the child hit has content that does not load |
| RealityAugmentor.Augmentor.Draw | src/com/googlecode/javacv/procamtracker/RealityAugmentor.java:722-797 | no content: null and nothing drawn. Tracked content: the whole image warped (null previous rectangle), or the warp within `maxroi = Union(prevroi, roi)` with `prevroi` overwritten by the dirty rectangle. Fixed content: copied or resized by size |
| RealityAugmentor.Augmentor.Update | src/com/googlecode/javacv/procamtracker/RealityAugmentor.java:690-798 | throws exactly in `UpdateFails`: a hand-mouse position with no object image throws before anything changes, and a click on content that does not load throws after selecting it; otherwise click selection, then `Draw` |
| BytedecoTracking.TimeMaxAsWritten | src/main/java/org/bytedeco/procamtracker/TrackingWorker.java:580 | `getIteratingTimeMax()*1000000` is computed in 32 bits: congruent to the product modulo 2^32 |
| BytedecoTracking.TimeBudgetWrapsNegative | src/main/java/org/bytedeco/procamtracker/TrackingWorker.java:580 | budgets of 2148 to 4294 ms wrap to a negative timeMax, which turns the budget off |
| BytedecoTracking.TimeMaxNanos | src/main/java/org/bytedeco/procamtracker/TrackingWorker.java:580 | the corrected budget is positive exactly when the setting is, and is that many milliseconds in nanoseconds |
| BytedecoTracking.TimeMaxAgreesBelowWrap | src/main/java/org/bytedeco/procamtracker/TrackingWorker.java:580 | up to 2147 ms the written and corrected budgets agree |
| BytedecoTracking.InitParameters | src/main/java/org/bytedeco/procamtracker/TrackingWorker.java:515-522 | the gain/ambient vector fills the last entries, earlier entries keep their created values, and the previous and temporary parameters are equal copies |
| BytedecoTracking.MonitorByte | src/main/java/org/bytedeco/procamtracker/TrackingWorker.java:405-410 | 0 under a zero mask byte or for NaN, else `round(255*min(1,|v|))`, within half a unit |
| BytedecoTracking.MonitorPixel | src/main/java/org/bytedeco/procamtracker/TrackingWorker.java:394-411 | three bytes per pixel: channel order kept for 3 input channels, reversed otherwise, missing channels 0 |
| BytedecoTracking.MonitorPixels | src/main/java/org/bytedeco/procamtracker/TrackingWorker.java:404 | the loop stops exactly when the input, output or mask buffer is exhausted |
| BytedecoTracking.GetMonitorImage | src/main/java/org/bytedeco/procamtracker/TrackingWorker.java:391-414 | pixels are converted while every buffer has room; each converted pixel's three bytes are `MonitorPixel` of its input under its mask byte; when the output has room for only part of the next pixel, those bytes are written and the call throws (never when the output holds three bytes per input pixel); otherwise the rest of the output is untouched |
| BytedecoTracking.PutUntilFull | src/main/java/org/bytedeco/procamtracker/TrackingWorker.java:409-411 | the bytes of one pixel are put until the output is full; the bytes before are untouched |
| BytedecoTracking.MaskedPixelIsBlack | src/main/java/org/bytedeco/procamtracker/TrackingWorker.java:410 | a pixel under a zero mask byte is black |
| BytedecoTracking.FillRing | src/main/java/org/bytedeco/procamtracker/TrackingWorker.java:540-558 | position 0; slot 0 holds the composed image; every other slot holds a copy with a full-image rectangle |
| BytedecoTracking.BadsExtend | src/main/java/org/bytedeco/procamtracker/TrackingWorker.java:674-675 | the flags of one more frame extend the earlier ones |
| BytedecoTracking.LostClearStep | src/main/java/org/bytedeco/procamtracker/TrackingWorker.java:674-682 | the counter fires exactly on a frame that is the second bad one in a row, and otherwise stays in step with the frames |
| BytedecoTracking.TrackingWorker.constructor | src/main/java/org/bytedeco/procamtracker/TrackingWorker.java:540 | no aligner yet |
| BytedecoTracking.TrackingWorker.ResetAndAudit | src/main/java/org/bytedeco/procamtracker/TrackingWorker.java:637-670 | the aligner ends with `Audited`: the gain/ambient reset, then the audit at `pyramidLevelAudit` when it is non-negative; otherwise its level is kept |
| BytedecoTracking.TrackingWorker.RunTasks | src/main/java/org/bytedeco/procamtracker/TrackingWorker.java:685-784 | the hand-mouse level when needed; the camera is fed ring offset +1 for tracked content; offset -1 is shown unless the content is fixed; a good grab becomes the target |
| BytedecoTracking.TrackingWorker.ComposeAndAdvance | src/main/java/org/bytedeco/procamtracker/TrackingWorker.java:787-793 | the augmentor writes offset 0 and no other slot; the position advances by one |
| BytedecoTracking.TrackingWorker.TrackFrame | src/main/java/org/bytedeco/procamtracker/TrackingWorker.java:597-793 | the iteration loop stops after the first call that converges or passes the budget as the source computes it (`FirstStop` under `TimeMaxAsWritten`); the aligner then holds that call's parameters with the gain/bias slice reset to the previous frame's and, with `pyramidLevelAudit` set, audited at that level (`FrameAudited`); its level is the audit level or that call's, except the hand-mouse level when a completed frame needs the mouse; the new lost count follows the bad-frame rule and the frame ends the track exactly when it exceeds 1, leaving the grab flag and the ring untouched; otherwise the previous parameters catch up, the ring rotates, only the composed slot changes, and the fed/shown/composed slots are +1/-1/0 of the old position |
| BytedecoTracking.TrackingWorker.Initialize | src/main/java/org/bytedeco/procamtracker/TrackingWorker.java:515-578 | the parameters with their gain/ambient slice, the filled ring, the first grab, and a new aligner on the parameters |
| BytedecoTracking.TrackingWorker.TrackFrames | src/main/java/org/bytedeco/procamtracker/TrackingWorker.java:597-808 | frames run while not cancelled, the grab succeeds and the RMSE is a number; the exit is cancelled exactly at the cancel count, grab failed exactly when the loop stops early on a failed grab (the initial one or the last frame's), RMSE-NaN with a NaN RMSE after a successful grab, and lost exactly at the first frame that is the second bad one in a row |
| BytedecoTracking.TrackingWorker.DoTracking | src/main/java/org/bytedeco/procamtracker/TrackingWorker.java:416-871 | no region of interest returns false; otherwise the result is true exactly when the worker is cancelled by the end or the last grab failed, so a lost track or a NaN RMSE restarts unless the worker is cancelled |
| BytedecoTracking.TrackingWorker.DoInBackground | src/main/java/org/bytedeco/procamtracker/TrackingWorker.java:1008-1015 | `doTracking` is called until it returns true: only the last call finishes the worker, judged by its exit, its frame count and its cancel frame |
| JavacvTracking.InitParameters | src/com/googlecode/javacv/procamtracker/TrackingWorker.java:293-299 | the entry before the last `|ambientLight|` is 1.0, those entries are the ambient light, the rest keeps the created values, and the copies are equal |
| JavacvTracking.TrackingWorker.constructor | src/com/googlecode/javacv/procamtracker/TrackingWorker.java:137-138 | two distinct, empty previous rectangles; image 0 current |
| JavacvTracking.TrackingWorker.AuditFrame | src/com/googlecode/javacv/procamtracker/TrackingWorker.java:486-519 | the aligner ends with `Audited` at `auditPyramidLevel`; `lastParameters` becomes the aligner's parameters unconditionally |
| JavacvTracking.TrackingWorker.DoCamera | src/com/googlecode/javacv/procamtracker/TrackingWorker.java:174-199 | unless the content is fixed, the other image `(idx+1)%2` is fed; a failed grab with gamma ≠ 1 throws; a good grab becomes the aligner's target |
| JavacvTracking.TrackingWorker.DoProjector | src/com/googlecode/javacv/procamtracker/TrackingWorker.java:201-204 | the augmentor updates image `idx` with `prevroi[idx]`, failing exactly when its update throws; the other image's rectangle is untouched |
| JavacvTracking.TrackingWorker.CameraAndProjector | src/com/googlecode/javacv/procamtracker/TrackingWorker.java:527 | the camera task, then the projector task on the current image |
| JavacvTracking.TrackingWorker.RunTasks | src/com/googlecode/javacv/procamtracker/TrackingWorker.java:521-529 | the camera task alone for fixed content, both tasks otherwise; then the index toggles to the other image |
| JavacvTracking.TrackingWorker.TrackFrame | src/com/googlecode/javacv/procamtracker/TrackingWorker.java:357-529 | the iteration loop stops after the first call that converges or passes `iteratingTimeMax` (`FirstStop`); the aligner and the previous parameters then hold that call's parameters with the slice reset to the previous frame's and, with `auditPyramidLevel` set, audited at that level (`FrameAudited`); the level is the audit level or that call's; a completed frame records its grab and makes the other image current; a crash comes from a failed grab under gamma or a hand mouse without object image |
| JavacvTracking.TrackingWorker.ShowFirst | src/com/googlecode/javacv/procamtracker/TrackingWorker.java:293-328 | parameter initialisation, the first composed image, and a projector update of image 0 with no aligner, failing exactly when that update throws |
| JavacvTracking.TrackingWorker.StartAligner | src/com/googlecode/javacv/procamtracker/TrackingWorker.java:333-340 | a grab with image 1 current, then a new aligner on the parameters and image 0 current, whose target is the grabbed frame, or the undistorted buffer's earlier contents when the grab failed with gamma 1 |
| JavacvTracking.TrackingWorker.TrackFrames | src/com/googlecode/javacv/procamtracker/TrackingWorker.java:354-530 | each frame starts with the RMSE below the lost-object threshold, when set; the index is the frame count mod 2; the exit is cancelled, grab failed or object lost by the failing guard |
| JavacvTracking.TrackingWorker.SetUp | src/com/googlecode/javacv/procamtracker/TrackingWorker.java:258-340 | no object found returns false; a missing object image or a failed first grab under gamma throws; otherwise tracking starts |
| JavacvTracking.TrackingWorker.DoTracking | src/com/googlecode/javacv/procamtracker/TrackingWorker.java:221-575 | the result is true exactly when cancelled or a grab failed; a lost object or region not found returns false |
| JavacvTracking.TrackingWorker.DoInBackground | src/com/googlecode/javacv/procamtracker/TrackingWorker.java:663-676 | `doTracking` is called until it returns true or throws: only the last call ends the worker |
| AudetTracking.InitParameters | src/name/audet/samuel/procamtracker/TrackingWorker.java:730-737 | entry 8 is 1.0, entries 9.. are the ambient light, and every other entry keeps its created value |
| AudetTracking.AuditLevel | src/name/audet/samuel/procamtracker/TrackingWorker.java:949-951 | the audit level is never below the current level |
| AudetTracking.AuditLevelCases | src/name/audet/samuel/procamtracker/TrackingWorker.java:949-951 | the level rises by the shift's low 32 bits when they are positive and the sum fits an `int`; it stays when they are not positive or the sum overflows |
| AudetTracking.TrackingWorker.constructor | src/name/audet/samuel/procamtracker/TrackingWorker.java:228-238 | two distinct, empty previous rectangles; image 0 current |
| AudetTracking.TrackingWorker.NextFrameImage | src/name/audet/samuel/procamtracker/TrackingWorker.java:405-462 | the video frame with the overlay blended over its region as written (`Composed`, through `BlendPixelAsWritten`), or the still image; the chronometer is drawn |
| AudetTracking.TrackingWorker.DrawChronometer | src/name/audet/samuel/procamtracker/TrackingWorker.java:458-460 | the chronometer, if any, latches or shows elapsed time and anchors its placement |
| AudetTracking.TrackingWorker.DoProjector | src/name/audet/samuel/procamtracker/TrackingWorker.java:464-511 | the next frame, `roi` the dirty rectangle as written (right edge not clamped), `maxroi` the union with `prevroi[idx]`, which is overwritten; the other image's rectangle is untouched |
| AudetTracking.TrackingWorker.UpdateRoi | src/name/audet/samuel/procamtracker/TrackingWorker.java:473-506 | the dirty rectangle as written: 16-aligned, non-negative, above the bottom edge, at most 15 columns past the right edge (none when the width is a multiple of 16), enclosing on-image corners; its union with the previous one; the previous one overwritten |
| AudetTracking.TrackingWorker.DoCamera | src/name/audet/samuel/procamtracker/TrackingWorker.java:382-403 | unless fixed, the other image is fed; a failed grab with gamma set throws; a good grab becomes the target |
| AudetTracking.TrackingWorker.Audit | src/name/audet/samuel/procamtracker/TrackingWorker.java:948-962 | the aligner moves to the audit level and keeps the new parameters exactly when their RMSE is lower; the kept parameters are `lastParameters` afterwards |
| AudetTracking.TrackingWorker.CameraAndProjector | src/name/audet/samuel/procamtracker/TrackingWorker.java:969 | the camera task then the projector task; crashes exactly on a failed grab with gamma set |
| AudetTracking.TrackingWorker.RunTasks | src/name/audet/samuel/procamtracker/TrackingWorker.java:965-971 | the camera task alone for a fixed projection, both otherwise; the index toggles |
| AudetTracking.TrackingWorker.Align | src/name/audet/samuel/procamtracker/TrackingWorker.java:807-963 | the iteration loop stops after the first call that converges or ends past the deadline (`FirstStopByDeadline`) and the parameters are read back from it; with a hysteresis pixel count the aligner moves to the audit level and keeps the better of those and the previous parameters (`AlignedAfter`), which become the previous ones; otherwise it keeps that call's level and parameters and the previous ones stay |
| AudetTracking.TrackingWorker.TrackFrame | src/name/audet/samuel/procamtracker/TrackingWorker.java:807-971 | the iteration loop stops as in `Align` (`FirstStopByDeadline`) and the aligner ends the frame at the level and with the parameters `AlignedAfter` gives against the frame's starting objective, which the worker tasks leave alone; the frame keeps the loop invariant `Running` unless the grab fails with gamma set, which throws |
| AudetTracking.TrackingWorker.TrackFrames | src/name/audet/samuel/procamtracker/TrackingWorker.java:807-972 | frames run while not cancelled and the grab succeeds; an exception ends the run at the frame whose grab failed |
| AudetTracking.TrackingWorker.LoadContent | src/name/audet/samuel/procamtracker/TrackingWorker.java:578-622 | a still image that fails to load throws; a video with a 4-channel overlay gets the region the alpha scan computes as written |
| AudetTracking.TrackingWorker.Initialise | src/name/audet/samuel/procamtracker/TrackingWorker.java:697-744 | a missing object image or no region throws; otherwise parameter initialisation and a chronometer exactly when the bounds have an area |
| AudetTracking.TrackingWorker.Prepare | src/name/audet/samuel/procamtracker/TrackingWorker.java:578-747 | content, initialisation, and the first frame composed with the blend as written; fails exactly in the cases of `PrepareFails` |
| AudetTracking.TrackingWorker.ShowFirst | src/name/audet/samuel/procamtracker/TrackingWorker.java:787-793 | for tracked projection, image 0 is updated with the unclamped dirty rectangle of the first warp |
| AudetTracking.TrackingWorker.StartAligner | src/name/audet/samuel/procamtracker/TrackingWorker.java:794-800 | a grab with image 1 current, then a new aligner and image 0 current; a failed grab with gamma set throws |
| AudetTracking.TrackingWorker.SetUp | src/name/audet/samuel/procamtracker/TrackingWorker.java:578-800 | set-up fails exactly in the cases of `SetUpFails`; otherwise the frame loop's invariant holds at frame 0 |
| AudetTracking.TrackingWorker.DoInBackground | src/name/audet/samuel/procamtracker/TrackingWorker.java:550-994 | a failed set-up ends with its exception; otherwise cancelled exactly at the cancel frame, grab failure at a failed grab, or the gamma exception |

## Left out

- The aligner, the transformer, the reflectance initializer and the homography warps are oracles. An `Objective` is a finite table of RMSE values with a default.
- Device I/O is not modelled: grabbers, projector windows, latency waits, video recording, screen capture, mouse injection, marker and object finders, and ROI clicks. Their results are inputs.
- Logging, timing statistics, `System.gc()` and the Chronometer font-size search are not modelled.
- `Parallel.run` and the executor are run sequentially, camera task first. A camera task that throws therefore skips the projector task of that frame.
- Exceptions are values (`Error`, `Failure`, `Failed`). The file names in their messages are not kept.
- `doInBackground`'s catch is modelled as the end of the worker. The check for already cancelled before logging is not modelled.
- Loops that may not end in the source take a finite script with a `requires` that some entry stops them. These are the iteration loops, whose `its` must hold a stopping call, and the restart loops, whose `sessions` must hold a finishing one. Runs that never end are not modelled.
- The camera gamma of the oldest worker is the boolean `gammaSet` (gamma ≠ 1). Only the exception on a failed grab depends on it.
- Images are two-dimensional arrays of 1 to 4 channel pixels rather than flat byte buffers with a row stride. The blend's row-capacity test becomes "the row exists in both images". A window column past the row end, which would run into the next row, is excluded by a `requires`.
- The `gamma22` lookup table is a parameter (any 256-entry table). The oldest worker uses the identity table.
- Parameter objects are values, not aliased Java objects. `parameters` and the aligner's parameters are related by postconditions instead of sharing.
- The VirtualBall, the warps themselves and the monitor windows are not modelled. The screen-copy loop is not modelled either, because its pixels come from a screen capture.
- `RealityAugmentor.nextFrameImage` is not modelled as a whole. Only its blend is, as `PixelBlend.BlendInto`.
- Chronometers.FirstDrawKeepsCallerRectangle: shows a single draw. That later draws never move a settled placement is stated by `Chronometers.AnchorSettles`.
- AudetTracking.TrackingWorker.Audit, AudetTracking.TrackingWorker.Align, AudetTracking.TrackingWorker.TrackFrame, AudetTracking.TrackingWorker.TrackFrames, AudetTracking.TrackingWorker.DoInBackground: the audit level computed from the pixel counts must lie on the pyramid (`FrameOk`). The source passes it to `setPyramidLevel` unchecked. What the aligner library then does is not part of this model, so frames whose audit level leaves the pyramid are excluded.
- BytedecoTracking.TrackingWorker.ResetAndAudit, BytedecoTracking.TrackingWorker.RunTasks, JavacvTracking.TrackingWorker.AuditFrame: the settings `pyramidLevelAudit`, `pyramidLevelHandMouse` and `auditPyramidLevel` must name levels of the pyramid (`SettingsOk`, `Valid`, `SessionOk`). The source does not check them, and what the aligner does with another level is not part of this model.
- RealityAugmentor.Augmentor.AcquireRoi, RealityAugmentor.Augmentor.Update: `initVirtualSettings` is modelled only through whether the content loads (`ContentLoads`). A video that fails to start, a desktop screen that does not exist, and the fractal, chronometer and virtual ball it sets up are not modelled.
- AudetTracking.AuditLevelCases: the logarithm `Math.round(log(pixelCount/hysteresisPixelCount)/log 4)` is an input, because it is floating point. The model keeps only the casts and the wrap-around.
- ParameterRules.ResetGainAmbient: parameters are reals, so a NaN entry is not modelled. In Java `p < 0 || p > 2` is false for NaN, so such an entry does not trigger the reset.
- ParameterRules.ResetLandsInRange: holds for real-valued slices only. A NaN entry left by the aligner would pass the range test and stay outside [0, 2].
- BytedecoTracking.MonitorByte: the source scales and rounds in `float` (`buffer[z]*255`, then `Math.round(float)`); the model computes `255*c` and its rounding on exact reals. A product that lies within half a `float` unit below k + 0.5 rounds to k + 1 in Java and to k here, so a byte may differ by one.
- JavaNumbers.Floor, JavaNumbers.Ceil, JavaNumbers.Round: the `(int)` and `Math.round` casts saturate at the `int`/`long` range in Java; the model's results are unbounded, which matters only for coordinates beyond ±2^31.
- AlphaRegion.AlphaRegionOf: `cvSetImageROI` clips a region to the image, and the blend positions raw buffers at the region's offset. The model keeps the region as computed; for an overlay with no visible pixel it lies below the image, so the modelled blend visits no row. What the native clipping and the `int` buffer offset would then do is not modelled.
- AudetTracking.TrackingWorker.LoadContent: the overlay's region is the one `AlphaRegionOf` computes, with the same omission of `cvSetImageROI`'s clipping.
- Each worker's dirty rectangle, blend and alpha region are modelled as its own source writes them. The corrected definitions (`DirtyRect.DirtyRoi`, `PixelBlend.BlendPixel`, `AlphaRegion.AlphaRoi`, `BytedecoTracking.TimeMaxNanos`) are proved beside them, and the javacv revision uses the clamped `DirtyRoi` because its source clamps.
- AudetTracking.TrackingWorker.DoInBackground: the worker runs `doInBackground` once and has no restart loop in this revision. There is no outer loop to model.

## Findings

| source | as written | input that shows it | evidently intended | confidence | as-written member | corrected member |
|---|---|---|---|---|---|---|
| src/name/audet/samuel/procamtracker/TrackingWorker.java:437-450 | a 3-channel overlay is blended with `a = a2 = 128`, weights summing to 256, and the sum is stored through `(byte)` | overlay pixel (255, 255, 255) over frame pixel (255, 255, 255): (255·128 + 255·128)/255 = 256, stored as 0 | weights summing to 255 (128 and 127), as for an overlay with alpha | not executed | PixelBlend.OpaqueOverlayWrapsToBlack, PixelBlend.AsWrittenHalfMix | PixelBlend.BlendPixelExact |
| src/name/audet/samuel/procamtracker/TrackingWorker.java:600 | the overlay's region is `cvRect(minX, minY, maxX-minX, maxY-minY)`, without `+ 1` | an overlay whose only visible pixel is (5, 7) gets the empty region (5, 7, 0, 0) | the bounding box of the visible pixels, inclusive of the last column and row | not executed | AlphaRegion.SinglePixelGivesEmptyRoi, AlphaRegion.AlphaRoiAsWrittenDropsLastColumn | AlphaRegion.AlphaRoiIsBoundingBox |
| src/name/audet/samuel/procamtracker/TrackingWorker.java:491-494 | the right edge `ceil(maxX/16)*16` is not clamped to the projector width (x and y are already non-negative, from the padding's `Math.max(0, …)`) | a 100-pixel-wide projector image and a corner at x = 98: the padded maxX is 100 and the right edge is 112 | clamped to the image, as `RealityAugmentor.update` does at line 759 | not executed | DirtyRect.UnclampedRoiLeavesImage, DirtyRect.DirtyRoiAsWrittenBounds | DirtyRect.DirtyRoiEnclosesCorners |
| src/main/java/org/bytedeco/procamtracker/TrackingWorker.java:580 | `getIteratingTimeMax()*1000000` multiplies two `int`s before widening to `long` | iteratingTimeMax = 3000 gives 3000000000 − 2^32 < 0, which disables the time budget | the product in `long`, positive for every positive setting | not executed | BytedecoTracking.TimeBudgetWrapsNegative | BytedecoTracking.TimeMaxNanos |

# stytra core in Dafny

A model of three pieces of stytra, the zebrafish behaviour and stimulation package:

- **Calibration geometry** (`stytra/calibration/__init__.py`). This covers:
  - the calibrators' `enabled` flag and its `~` toggle;
  - the physical-scale setters of the base, cross and circle calibrators;
  - the integer construction of the three-dot 30-60-90 pattern;
  - the angle-based ordering of three detected dots;
  - the two affine transforms, projector to camera and back, solved from them.
- **Stimulus parameter updates** (`stytra/stimulation/stimuli.py`). This covers:
  - the attribute dictionary and the two logging views, `get_state` and `get_dynamic_state`;
  - the constructor chains, following Python's method resolution order;
  - the angle-zero translation matrix;
  - the wrap-around tiling that `SeamlessPainterStimulus.paint` draws;
  - the `update` of `MovingSeamless`, `MovingConstantly` and `ClosedLoop1D`;
  - the shock stimulus's serial message and burst.
- **The protocol's stimulus table** (`stytra/examples/self_calib_cl_exp.py`). This is the time and base-velocity table that `get_stim_sequence` builds from the constructor's constants.

Every Python object is an immutable datatype, and every mutating method is a function that returns the new object. Where Python can raise part-way, the function returns a `Result`, or a pair of the object and an `Outcome`. Exceptions are the `PyError` values of module `Errors`.

| file | module | contents |
|---|---|---|
| errors.dfy | Errors | Python exceptions; `Result`, `Outcome`, `Option` |
| geometry.dfy | Geometry | points, 2x3 affine maps, the 3x3 inverse (`np.linalg.inv`), solving an affine map from three point pairs |
| sorting.dfy | Sorting | `np.argsort` as a sort of indices, ties in index order; fancy indexing |
| numerics.dfy | Numerics | `int()` truncation, the integer square root, `str(int)`, `str.zfill`, and a decimal reader as their partner |
| calibration.dfy | Calibration | the three calibrator classes |
| stimulus_state.dfy | StimulusState | the attribute dictionary; `Stimulus`, `DynamicStimulus`, `BackgroundStimulus` |
| interpolation.dfy | Interpolation | `np.interp` |
| seamless.dfy | Seamless | `_transform_mat`, the painter's tiling, `SeamlessPainterStimulus`, `MovingSeamless` |
| motion.dfy | MotionStimuli | `SeamlessStimulus`, `MovingConstantly`, `ClosedLoop1D` |
| shock.dfy | ShockStimulus | `ShockStimulus` |
| protocol.dfy | ClosedLoopProtocol | `ClosedLoop1DProt` and its table |

Modelling choices that shape the contracts:

- **The angle of a vertex.** The source computes it with `np.abs(np.arccos(cos))`. Here it is replaced by the key `-c * |c|` of the cosine `c`. The key is strictly increasing in the angle (`Calibration.KeyOrdersLikeAngle`), and the argsort only compares angles, so it sorts the same way. A vertex with a coincident neighbour gets key 2, above every other key. This matches numpy's NaN, which sorts last.
- **`np.argsort` on three keys** is modelled with ties kept in index order. This is an assumption: numpy's default sort does not promise any order among equal keys. Where the result matters the keys are distinct (`Calibration.FindTriangleOrderInvariant`), and then the order of ties never arises.
- **`np.linalg.inv`** is the adjugate over the determinant, over exact reals. A zero determinant raises `LinAlgError`. The determinant of the homogeneous point matrix is twice the signed area, so it is zero exactly for collinear points.
- **`int(dh * math.sqrt(3))`** is the integer square root of `3 * dh * dh`, with the sign of `dh`.
- **`find_transform_matrix`** is modelled as written. It assigns `points_cam` first, then `proj_to_cam`, then `cam_to_proj`. A later failure therefore leaves the earlier assignments in place; a failed keypoint count changes nothing.
- **`CircleCalibrator.__init__`** never calls the base constructor. A fresh circle calibrator therefore has no `enabled` and no `mm_px`, and toggling it raises `AttributeError`.
- **`SeamlessStimulus.__init__`** captures `background` in its own signature and passes nothing on. A `SeamlessStimulus` subclass therefore never has a background. `SeamlessPainterStimulus` spells its keyword `dynamic_paramters`, which is captured and dropped. So by default it records nothing. `MovingConstantly` has no `DynamicStimulus` among its bases and so no `dynamic_parameters` at all.
- **The three update-driven stimuli** (`MovingSeamless`, `MovingConstantly`, `ClosedLoop1D`) are records of the attributes their `update` reads and writes. Each is built from the attribute dictionary that the constructor chain produces. For `ClosedLoop1D` the dictionary is rebuilt from the record where logging needs it (`ClosedLoopAttrs`).
- **`getattr(self, p, 0)`** in `get_dynamic_state` falls back to the class's attributes; the class is a second attribute dictionary passed to `GetDynamicState`.
- **Values the source reads from outside** become parameters:
  - the fish motion estimator's velocity;
  - the detected keypoints, instead of the camera image;
  - the image size, instead of the `QImage`.
- **The pyboard** is the list of messages written to it.

## Model

| member | source | states |
|---|---|---|
| Calibration.NewCalibrator | stytra/calibration/__init__.py:13-16 | a new calibrator has the flag at False (0), the given mm/px, and no subclass state |
| Calibration.NewCross | stytra/calibration/__init__.py:29-32 | a new cross calibrator has the base fields and a line length of 1 px |
| Calibration.NewCircle | stytra/calibration/__init__.py:50-57 | a new circle calibrator has neither `enabled` nor `mm_px`, and every point and matrix field is None |
| Calibration.Toggle | stytra/calibration/__init__.py:18-19 | toggling fails with AttributeError exactly when there is no flag; otherwise the new flag e' satisfies e + e' = -1 (bitwise not), and nothing else changes |
| Calibration.ToggleInvolution | stytra/calibration/__init__.py:18-19 | toggling twice gives back the same calibrator |
| Calibration.ToggleAlternates | stytra/calibration/__init__.py:14-19 | from False, n toggles leave the flag at 0 for even n and -1 for odd n; it is truthy exactly after an odd number |
| Calibration.SetPhysicalScale | stytra/calibration/__init__.py:21-78 | `set_physical_scale` of the three classes: mm/px times the pixel length (1 for the base class, the line length for the cross, dh for the circle) equals the measured distance; ZeroDivisionError exactly for a zero pixel length; nothing else changes |
| Calibration.MakeCalibrationPattern | stytra/calibration/__init__.py:24-69 | the base class changes nothing; the cross sets its line length l to h // 2, stated as 2l <= h < 2l + 2; the circle stores its sorted points; no other field changes |
| Calibration.SqrtThreeTimes | stytra/calibration/__init__.py:63 | the truncated dh * sqrt(3): its magnitude is the largest r with r * r <= 3 * dh * dh, and its sign is that of dh |
| Calibration.Centres | stytra/calibration/__init__.py:61-66 | the three centres form a right triangle with its right angle at the first, legs of 2 * (dh // 2) along x and 2 * (int(dh * sqrt 3) // 2) along y, and its bounding box centred on (w // 2, h // 2) |
| Calibration.DotCentres | stytra/calibration/__init__.py:66 | the dots for offsets a and b: right angle at the first dot, legs 2a and 2b, box centred on the given centre |
| Calibration.CentresRightAngle | stytra/calibration/__init__.py:62-67 | for all sizes, the integer dot product of the first centre's two edges is zero: it is the right-angle vertex |
| Calibration.PatternPoints | stytra/calibration/__init__.py:69 | the stored points are a rearrangement of the three centres |
| Calibration.PatternOrder | stytra/calibration/__init__.py:66-69 | for dh >= 3 the stored points are the centres in reverse order: the 30-degree dot, then the 60-degree dot, then the right-angle dot |
| Calibration.KeyOf | stytra/calibration/__init__.py:87-90 | a degenerate vertex (a zero-length edge) has key 2; every other key lies in [-1, 1], as a cosine does |
| Calibration.KeyOrdersLikeAngle | stytra/calibration/__init__.py:87-90 | one vertex's key is below another's exactly when its cosine is above the other's, i.e. when its arccos angle is smaller |
| Calibration.KeySymmetric | stytra/calibration/__init__.py:84-90 | the angle at a point does not depend on which neighbour is "previous" and which is "next" |
| Calibration.OtherTwo | stytra/calibration/__init__.py:84-85 | for three points, indices (i - 1) % 3 and (i + 1) % 3 are exactly the other two indices |
| Calibration.Angles | stytra/calibration/__init__.py:80-91 | one key per point, each computed from that point and the other two |
| Calibration.AnglesPermute | stytra/calibration/__init__.py:81-91 | rearranging the three points rearranges their angles the same way: each angle depends only on the point set |
| Calibration.SortByAngle | stytra/calibration/__init__.py:115 | the result is a rearrangement of the keypoints, in ascending angle order |
| Calibration.FindTriangle | stytra/calibration/__init__.py:108-115 | CalibrationException exactly when the keypoint count is not 3; otherwise the keypoints rearranged in ascending angle order |
| Calibration.FindTriangleOrderInvariant | stytra/calibration/__init__.py:108-115 | with three distinct angles, every rearrangement of the keypoints yields the same triangle |
| Calibration.FindTransformMatrix | stytra/calibration/__init__.py:117-125 | a non-circle calibrator has no such method (AttributeError); a wrong keypoint count changes nothing; otherwise `points_cam` is the sorted triangle; the flag, scale, pattern size and projector points never change |
| Calibration.FindTransformMatrixSolves | stytra/calibration/__init__.py:121-125 | success exactly when the projector points exist and neither triangle is collinear; then `proj_to_cam` sends each projector point to its camera point and `cam_to_proj` sends it back |
| Calibration.FindTransformMatrixPartial | stytra/calibration/__init__.py:117-125 | on each failure after the count check, exactly the fields assigned before the failing step hold their new values |
| Geometry.Inverse | stytra/calibration/__init__.py:124-125 | `np.linalg.inv`: LinAlgError exactly for a zero determinant; otherwise a left inverse |
| Geometry.SolveAffine | stytra/calibration/__init__.py:121-125 | `to.T @ inv(homogeneous(from))`: LinAlgError exactly when the homogeneous matrix is singular; otherwise it maps each point of `from` to the point of `to` with the same index |
| Geometry.HomogeneousSingularIffCollinear | stytra/calibration/__init__.py:121-122 | the homogeneous point matrix's determinant is the triangle's orientation, so it is singular exactly for collinear points |
| Sorting.ArgSort | stytra/calibration/__init__.py:115 | `np.argsort` returns a permutation of the indices whose keys ascend, with ties in index order |
| Sorting.ArgSortUnique | stytra/calibration/__init__.py:115 | any permutation that sorts the keys in that order is the argsort |
| Sorting.Permute | stytra/calibration/__init__.py:115 | fancy indexing `xs[idx]`: entry a of the result is `xs[idx[a]]` |
| StimulusState.NewStimulus | stytra/stimulation/stimuli.py:17-28 | a new stimulus has `_started` None and elapsed time 0.0 |
| StimulusState.GetState | stytra/stimulation/stimuli.py:30-38 | the state is exactly the non-callable attributes whose name does not start with `_`, with their values; an attribute named "" raises IndexError |
| StimulusState.NewStimulusState | stytra/stimulation/stimuli.py:25-38 | a fresh stimulus logs elapsed 0.0, its duration and its empty name, and not its start time |
| StimulusState.UnloggedAttributeIgnored | stytra/stimulation/stimuli.py:33-36 | setting a private or callable attribute in place of another such attribute never changes the logged state |
| StimulusState.WithDynamicParameters | stytra/stimulation/stimuli.py:52-63 | `dynamic_parameters` is the given list, or [] when none is given; no other attribute changes |
| StimulusState.GetDynamicState | stytra/stimulation/stimuli.py:65-66 | one value per recorded parameter, in order: the instance attribute's value, else the class attribute's, else the int 0 |
| StimulusState.DefaultDynamicStateEmpty | stytra/stimulation/stimuli.py:60-66 | a dynamic stimulus built without a parameter list records nothing, whatever its class defines |
| StimulusState.WithBackground | stytra/stimulation/stimuli.py:108-114 | x, y and theta are the int 0, `_background` is the given background, and every other attribute is kept |
| Seamless.TransformMatTranslates | stytra/stimulation/stimuli.py:122-125 | at angle zero the matrix moves every point by (y, x) |
| Seamless.TranslationMat | stytra/stimulation/stimuli.py:122-125 | the matrix sends every point p to (p.x + y, p.y + x) |
| Seamless.Wrap | stytra/stimulation/stimuli.py:165-167 | `x - floor(x / n) * n` lies in [0, n) |
| Seamless.WrapRemovesWholeWidths | stytra/stimulation/stimuli.py:165-167 | x minus its wrapped offset is a whole multiple of n |
| Seamless.WrapUnique | stytra/stimulation/stimuli.py:165-167 | the wrapped offset is the only value in [0, n) that differs from x by a whole multiple of n |
| Seamless.WrapPeriodic | stytra/stimulation/stimuli.py:165-167 | moving by one image width leaves the offset unchanged |
| Seamless.Tiles | stytra/stimulation/stimuli.py:175-177 | tile k is at (dx + imw * i, dy + imh * j) with i = k // 3 - 1 and j = k % 3 - 1: i outer and j inner, as `product` yields them |
| Seamless.PaintTiles | stytra/stimulation/stimuli.py:156-177 | ZeroDivisionError exactly for an empty image; otherwise the nine tiles around the origin (display centre - image centre + wrapped x, display centre - image centre - wrapped y) |
| Seamless.PaintTilesPeriodic | stytra/stimulation/stimuli.py:165-177 | moving the stimulus by a whole image width or height draws the same nine tiles |
| Seamless.TilesCoverDisplay | stytra/stimulation/stimuli.py:169-177 | when the image is at least as large as the display, every display point lies in one of the nine tiles |
| Seamless.NewSeamlessPainter | stytra/stimulation/stimuli.py:143-148 | ValueError exactly when the background is not a 2-D or 3-D array (None by default); otherwise a dynamic stimulus at position and angle 0, with elapsed 0.0 and its background replaced by an image object |
| Seamless.SeamlessPainterRecordsNothing | stytra/stimulation/stimuli.py:145-147 | whatever is passed as the misspelled `dynamic_paramters` and whatever the class defines, a painter built without `dynamic_parameters` records nothing |
| Seamless.NewMovingSeamless | stytra/stimulation/stimuli.py:195-198 | the painter's ValueError for a background that is not a 2-D or 3-D array; otherwise a moving stimulus at time 0, position 0 and angle 0, holding the given motion table |
| Seamless.TrackAttr | stytra/stimulation/stimuli.py:201-205 | one attribute's step: it fails with ValueError exactly when the attribute's column exists but cannot be interpolated, and then changes nothing; otherwise the attribute takes the interpolated value at the elapsed time; a missing table or column is skipped; no other attribute changes |
| Seamless.MovingSeamlessUpdate | stytra/stimulation/stimuli.py:200-205 | `update` fails with ValueError exactly when some tracked column cannot be interpolated; an attribute without a column keeps its value; time and table never change |
| Seamless.MovingSeamlessAtSample | stytra/stimulation/stimuli.py:200-205 | at a breakpoint time of a well-formed table, every tracked attribute takes that breakpoint's value |
| Interpolation.Interp | stytra/stimulation/stimuli.py:203 | `np.interp`: ValueError exactly for empty or mismatched samples; outside the sample range, the end value |
| Interpolation.InterpAtSample | stytra/stimulation/stimuli.py:203 | at a sample time, the value of the last sample with that time |
| Interpolation.InterpBetweenNeighbours | stytra/stimulation/stimuli.py:203 | between two neighbouring samples, a value between theirs |
| MotionStimuli.NewSeamless | stytra/stimulation/stimuli.py:117-119 | the stimulus has no background whatever background is passed; it is at position and angle 0; it has no `dynamic_parameters` unless a dynamic subclass passes a list, and then records that list |
| MotionStimuli.NewMovingConstantly | stytra/stimulation/stimuli.py:208-220 | ZeroDivisionError exactly for a zero mm/px or monitor rate; otherwise at rest at 0, with each per-frame shift times the rate times mm/px equal to the velocity |
| MotionStimuli.MovingConstantlyUpdate | stytra/stimulation/stimuli.py:222-224 | one update moves x and y by exactly one frame's shift and changes nothing else |
| MotionStimuli.FramesDrift | stytra/stimulation/stimuli.py:222-224 | after n updates the position is the start plus n shifts; nothing else changes |
| MotionStimuli.DriftPerSecond | stytra/stimulation/stimuli.py:209-224 | one second of frames at the monitor rate moves the stimulus by its velocity in pixels |
| MotionStimuli.NewClosedLoop1D | stytra/stimulation/stimuli.py:229-239 | a new closed-loop stimulus is at rest at 0 with velocity 0; its past time and position equal the present ones |
| MotionStimuli.ClosedLoopUpdate | stytra/stimulation/stimuli.py:241-250 | after an update the past time and position equal the present ones |
| MotionStimuli.ClosedLoopStep | stytra/stimulation/stimuli.py:241-250 | velocity = default + fish velocity; x grows by the time since the last update times the velocity; y, theta and everything else are unchanged |
| MotionStimuli.SettledHoldsPosition | stytra/stimulation/stimuli.py:241-250 | a repeated update at the same elapsed time does not move x, whatever the fish does |
| MotionStimuli.ClosedLoopIntegrates | stytra/stimulation/stimuli.py:241-245 | two updates integrate the velocity: x moves by each velocity times its own time interval |
| MotionStimuli.ClosedLoopAttrs | stytra/stimulation/stimuli.py:229-239 | the dictionary is dynamic with parameters ["x", "vel"], holds x, vel and elapsed from the record, and has no background and no start time |
| MotionStimuli.ClosedLoopRecords | stytra/stimulation/stimuli.py:232-235 | a closed-loop stimulus logs its x and its velocity, in that order |
| Numerics.ISqrt | stytra/calibration/__init__.py:62 | the largest r with r * r <= n |
| Numerics.Trunc | stytra/stimulation/stimuli.py:276 | `int(x)` truncates toward zero |
| Numerics.NatDecimal | stytra/stimulation/stimuli.py:276 | `str` of a non-negative int is a non-empty digit string with no leading zero unless it is "0" |
| Numerics.IntDecimal | stytra/stimulation/stimuli.py:276 | `str(n)` is non-empty, starts with '-' exactly for negative n, and is digits otherwise (after the sign) |
| Numerics.IntDecimalRoundTrip | stytra/stimulation/stimuli.py:276 | `str(n)` reads back as n for every int n |
| Numerics.ZFill | stytra/stimulation/stimuli.py:277 | `zfill(width)` leaves strings of at least that width alone; otherwise it pads with zeros to that width, after any leading sign |
| Numerics.ZFillKeepsValue | stytra/stimulation/stimuli.py:277 | zero-filling the decimal of a non-negative int keeps its value |
| ShockStimulus.Message | stytra/stimulation/stimuli.py:276-278 | the message is "shock", then `str` of the DAC level, then `str` of the duration zero-filled to three characters, with nothing else between or after |
| ShockStimulus.MessageRoundTrip | stytra/stimulation/stimuli.py:276-278 | for a duration of 0 to 999 ms the message splits back into the DAC level and the duration |
| ShockStimulus.LongDurationAmbiguous | stytra/stimulation/stimuli.py:276-278 | from 1000 ms on, two different pulses can send the same message ("shock71000") |
| ShockStimulus.AmpDac | stytra/stimulation/stimuli.py:276 | the DAC level is 255 * amp / 3.5 truncated toward zero, so it is within 0..255 for an amplitude within 0..3.5 mA |
| ShockStimulus.NewShock | stytra/stimulation/stimuli.py:253-278 | ZeroDivisionError exactly for a zero burst frequency; otherwise one pulse plus the pause fill one burst period (1000 / burst_freq ms), the message is `Message` of the amplitude and duration, the name is "shock", elapsed is 0, and the burst parameters and board are the given ones |
| ShockStimulus.Start | stytra/stimulation/stimuli.py:280-286 | `start` writes the message pulse_n times (none for pulse_n <= 0) and then sets elapsed to 1; a board that is not an object (None by default) raises AttributeError before anything is written |
| ClosedLoopProtocol.StimSequence | stytra/examples/self_calib_cl_exp.py:30-44 | the loop builds the time and velocity columns of five blocks |
| ClosedLoopProtocol.NewProtocol | stytra/examples/self_calib_cl_exp.py:22-28 | a pause of 1 s, a grating velocity of 10, a grating duration of 5 s and a grating cycle of 10 |
| ClosedLoopProtocol.TimeColumn | stytra/examples/self_calib_cl_exp.py:37-43 | after n blocks the time column has 1 + 6n entries |
| ClosedLoopProtocol.VelColumn | stytra/examples/self_calib_cl_exp.py:38-44 | after n blocks the velocity column has 1 + 6n entries, as many as the time column |
| ClosedLoopProtocol.ColumnsGrow | stytra/examples/self_calib_cl_exp.py:42-44 | building more blocks only appends to both columns |
| ClosedLoopProtocol.BlocksAreShiftedBase | stytra/examples/self_calib_cl_exp.py:37-44 | every time block is the base times shifted by the preceding last time, so each block starts where the previous one ended; every velocity block is the base velocities |
| ClosedLoopProtocol.LastTime | stytra/examples/self_calib_cl_exp.py:37-43 | the last time after n blocks is n * (2p + d) |
| ClosedLoopProtocol.TimesNonDecreasing | stytra/examples/self_calib_cl_exp.py:37-43 | for p, d >= 0 the times never decrease |
| ClosedLoopProtocol.VelocitiesAreStillOrBackwards | stytra/examples/self_calib_cl_exp.py:38-44 | every velocity is 0 or -v |
| ClosedLoopProtocol.VelocityStepsAtRepeatedTimes | stytra/examples/self_calib_cl_exp.py:37-44 | the velocity changes only between two entries with equal times |
| ClosedLoopProtocol.InterpolatedVelocityIsStep | stytra/examples/self_calib_cl_exp.py:37-46 | interpolating the table at any time gives exactly 0 or -v, never a value on a ramp |
| ClosedLoopProtocol.DefaultTable | stytra/examples/self_calib_cl_exp.py:25-44 | with the constructor's constants, p = 0.5, both columns have 31 entries, the last time is 30 s, and every velocity is 0 or -10 |

## Left out

- Qt painting (QPainter, QRect, QBrush, QTransform, `rotTransform`) and the int conversion `QPoint` applies to the tile origins: drawing is not logic this model states anything about.
- OpenCV: the blob detection and image rescaling in `_find_triangle` are replaced by the keypoints as input, and `cv2.warpAffine` in `get_image` is not modelled.
- Floating point: `math.sqrt`, `np.arccos`, `np.sqrt` and `np.linalg.inv` are computed over exact reals, so rounding is not modelled.
- Calibration.KeyOf: stands in for the arccos angle and agrees with it only on order (`KeyOrdersLikeAngle`), which is all the argsort uses.
- Calibration.PatternOrder: proved for dh >= 3 only; for dh of 0 to 2 the dots coincide or the offsets tie, and the order then depends on float ties.
- Interpolation.Interp: for sample times that decrease somewhere it uses the last sample at or before x, which need not be where numpy's binary search lands; numpy does not check the order and leaves that case unspecified.
- Seamless.TranslationMat: models only the theta = 0 branch of `_transform_mat`; the rotation branch is trigonometry.
- Seamless.NewSeamlessPainter: `qimage2ndarray` is not part of this model. `array2qimage` is an opaque image object, and its refusal of anything but a 2-D or 3-D array is modelled as ValueError; its checks of the array's dtype and channel count are left out.
- Numerics.ZFillKeepsValue: proved for non-negative ints only; the shock message zero-fills a duration, and a negative duration is covered only by `ZFill`'s own contract.
- Seamless.PaintTiles: an empty image always raises ZeroDivisionError here. After a `MovingSeamless` update, x and y hold numpy floats from `np.interp`, and numpy's division by zero then gives inf or nan with a warning, not an error; that case is not modelled.
- Numbers: elsewhere numpy-float division by zero is not modelled either; the remaining divisions are on Python numbers.
- Numbers: positions, velocities and elapsed times in the stimulus records are reals. The int 0 that the constructors store equals 0.0.
- MotionStimuli.ClosedLoopAttrs: writes x, y, theta, vel and the past values as floats. Before the first update the source holds the int 0 in them, which this dictionary does not tell apart from 0.0; the int/float distinction is kept only in the constructors' dictionaries.
- Sorting.ArgSort: keeps ties in index order, which numpy's default sort does not promise. Only the distinct-key case (`Calibration.FindTriangleOrderInvariant`) is independent of that choice.
- Numbers: the protocol's ints and floats are all reals.
- ShockStimulus: `pulse_dur_ms` and `pulse_n` are ints; the board is the list of its messages. `print` and the commented-out `sleep` are left out.
- `Flash` and `Pause` read an `output_shape` attribute nothing sets; they are not part of this model.
- The zmq acquisition stimuli, `RandomDotKinematogram` and `ImageStimulus.get_image` are not part of this model.
- The fish motion estimator is a parameter: its velocity is an input to `ClosedLoopUpdate`.
- `CalibratingClosedLoop1D`, `GratingStimulus`, the pandas DataFrame and the `Stytra` launch in the protocol file are not part of this model. The table is kept as its two columns.

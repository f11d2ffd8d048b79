# 360-degree video tracking: the perspective, gating and registry core

`test+co.py` reads a wide (360-degree) video frame by frame and cuts every
frame into five fixed perspectives: front, left, right, leftmost and
rightmost. For each perspective it measures motion saliency against the
frame it stored on the previous tick. A perspective whose saliency exceeds
a threshold is gated: the object detector runs on it, each detected box
appends its centre to a per-object path, and each box feeds a Kalman
filter kept per (perspective, class). Every perspective then stores the
frame for the next tick.

This project models the exact, deterministic part of that script and proves
properties about it:

- `Frames`: numpy images as values with an explicit shape, unsigned 8-bit
  samples, numpy's sample order and Python's slice rules (negative bounds
  wrap, bounds are clamped).
- `Perspective`: `transform_perspective`. This covers the name check, the
  centres, the 90-degree extents and the slice window, first as the source
  computes them and then in closed form, with proofs that every window lies
  inside the frame.
- `Saliency`: `detect_saliency` and the `saliency > threshold` gate. This
  covers the cold start, the uint8 wrap-around of `np.abs(frame - prev)`,
  the mean over all samples, and the threshold drawn from [120, 140].
- `Registry`: the `paths` and `kalman_filters` dictionaries as values. It
  says what one detection, and a run of detections of one perspective, does
  to them.
- `Pipeline`: the main loop. The class `Tracker` holds `paths`,
  `kalman_filters` and `previous_frames` as map fields. `Tick` is one pass
  of the `for perspective` loop over a frame, proved against specification
  functions: gate decisions per perspective, turns in the fixed order, and
  folds over those turns.

The object detector, `cv2.resize` and the Kalman filter's numerics are
parameters of `Tick`. The capture's frame size, its channel count (three,
for BGR frames) and the threshold are fixed for the run (`Pipeline.Run`).

`previous_frames[perspective]` receives a copy of the whole frame
(test+co.py:229), not the perspective's sub-view. On the next tick that
frame is resized down to the sub-view's shape before the comparison.

## Model

| member | source | states |
|---|---|---|
| `Frames.PySlice` | test+co.py:84-87 | Python's `s[a:b]` has the length the normalised bounds give; element k is element lo + k of s; for in-range bounds it is the plain subsequence |
| `Frames.SliceBound` | test+co.py:84-87 | Python's normalisation of one slice bound: a negative bound counts from the end, and the result is clamped to [0, n] |
| `Frames.SliceLength` | test+co.py:84-87 | the length of `s[a:b]`: the distance between the normalised bounds, or 0 when the start is past the stop |
| `Frames.NegativeStartWraps` | test+co.py:84-87 | a negative start counts from the end: `s[-1:len(s)]` is the last element, not an empty slice |
| `Frames.Crop` | test+co.py:84-87 | `img[y0:y1, x0:x1]` keeps the channel count and has the sliced row and column counts |
| `Frames.CropValid` | test+co.py:84-87 | a crop of a well-formed image is well-formed; with in-range bounds, pixel (i, j) of the crop is pixel (y0 + i, x0 + j) of the image |
| `Frames.SamplesLength` | test+co.py:103 | a well-formed image has exactly `size` samples, which is the count `np.mean` divides by |
| `Frames.Image.Size` | test+co.py:95-103 | numpy's `size`: rows times columns times channels, the count the cold-start test compares with 0 and `np.mean` divides by |
| `Frames.RowSamples` | test+co.py:103 | the samples of one row of pixels, in numpy's C order |
| `Frames.Samples` | test+co.py:103 | the samples of an image in numpy's C order, the sequence that `frame - previous_frame_resized` pairs element by element and `np.mean` averages |
| `Perspective.Parse` | test+co.py:66-77 | a name is accepted iff it is one of the five perspective names; an accepted name maps back to itself; any other raises `InvalidPerspective` |
| `Perspective.Name` | test+co.py:66-75 | the name of each perspective: "front", "left", "right", "leftmost" or "rightmost" |
| `Perspective.ViewsComplete` | test+co.py:108-114 | every perspective is in the fixed visiting order, and its name parses back to it |
| `Perspective.CentreX` | test+co.py:66-75 | the centre column of each perspective: W // 2, W // 4, 3W // 4, W // 8 and 7W // 8 |
| `Perspective.CentreY` | test+co.py:66-75 | the centre row, H // 2, the same for every perspective |
| `Perspective.FovDegrees` | test+co.py:19-25 | the field-of-view table: 90 degrees for every perspective |
| `Perspective.FovExtent` | test+co.py:80-81 | the field-of-view extent `int(n * degrees / 360)` of a frame side n |
| `Perspective.FovExtentIsQuarter` | test+co.py:80-81 | `int(n * 90 / 360)` is exactly n // 4 for every n >= 0 |
| `Perspective.FovWindow` | test+co.py:79-87 | the slice window as the source computes it: the centre minus and plus half of each 90-degree extent |
| `Perspective.WindowOf` | test+co.py:80-87 | the closed-form window has width 2 * (W // 8) and height 2 * (H // 8), and is centred on the perspective's centre |
| `Perspective.FovWindowIsWindowOf` | test+co.py:66-87 | the window the source computes (centre minus and plus half the field-of-view extent) equals the closed form, for every W, H and perspective |
| `Perspective.CentreXInside` | test+co.py:66-75 | every perspective's centre column is at least W // 8 away from both edges |
| `Perspective.WindowInsideFrame` | test+co.py:66-87 | every window lies within [0, W] x [0, H], so no slice bound is negative and none is clamped |
| `Perspective.LeftmostStartsAtZero` | test+co.py:72-87 | the leftmost window starts exactly at column 0 |
| `Perspective.RightmostReach` | test+co.py:74-87 | the rightmost window ends at column W when 8 divides W, and at W - 1 otherwise |
| `Perspective.FrontWindowFullHd` | test+co.py:66-87 | on a 1920x1080 frame the front window is rows 405 to 675 and columns 720 to 1200 |
| `Perspective.OddQuarterWidth` | test+co.py:80-87 | on a 1924-wide frame a quarter is 481 columns but the window is 480 wide: the side is even and can be one short of a quarter |
| `Perspective.Band` | test+co.py:84-87 | row i of the band is frame row y0 + i, cut to columns x0 to x1 |
| `Perspective.Project` | test+co.py:84-87 | the in-range sub-view of a perspective is a well-formed image of 2 * (H // 8) rows and 2 * (W // 8) columns with the frame's channels |
| `Perspective.ProjectPixels` | test+co.py:84-87 | pixel (i, j) of the sub-view is pixel (y0 + i, x0 + j) of the frame |
| `Perspective.TransformPerspective` | test+co.py:65-89 | `transform_perspective` fails iff the name is not one of the five, with `InvalidPerspective(name)`; on success the channel count is kept |
| `Perspective.TransformIsProject` | test+co.py:65-89 | on a frame of the video's size, `transform_perspective` with Python's full slice rules returns exactly the in-range sub-view |
| `Saliency.WrappedDiff` | test+co.py:103 | uint8 `np.abs(a - b)` is a - b when a >= b, and 256 - (b - a) when a < b |
| `Saliency.WrappedSum` | test+co.py:103 | the sum of the wrapped differences is at most 255 per sample |
| `Saliency.KeepsShape` | test+co.py:99-101 | what the model assumes of `cv2.resize`: on a well-formed image it returns a well-formed image of the requested width and height with the same channel count |
| `Saliency.DetectSaliency` | test+co.py:93-104 | no previous frame, or one of size 0, gives 0; otherwise it fails iff the sub-view has a zero side (the resize refuses it); any value is within [0, 255] |
| `Saliency.SaliencyIsMean` | test+co.py:99-103 | with a usable previous frame and a non-empty sub-view, the saliency is the sum of the wrapped differences against the resized previous frame divided by the `size` of the sub-view |
| `Saliency.Gate` | test+co.py:140 | `saliency > threshold`: a strict comparison, and a failed saliency never passes |
| `Saliency.ColdStartNeverGates` | test+co.py:95-96 | without a usable previous frame the gate never fires, whatever the threshold in [120, 140] |
| `Saliency.GateIffSumExceeds` | test+co.py:99-104 | with a usable previous frame and a non-empty sub-view, the gate fires iff the sum of wrapped differences exceeds threshold times the sample count |
| `Saliency.WrappedSumSame` | test+co.py:103 | identical samples have wrapped sum 0 |
| `Saliency.StillSceneNeverGates` | test+co.py:93-104 | a sub-view equal to the resized previous frame is never gated |
| `Saliency.WrappedSumOneBelow` | test+co.py:103 | samples one level below their counterparts wrap to 255 each |
| `Saliency.OneLevelDarkerGates` | test+co.py:93-104 | a sub-view one level darker than the resized previous frame in every sample has saliency 255, not 1, and is always gated |
| `Registry.Trunc` | test+co.py:164 | Python's `int(r)` truncates toward zero, from below for r >= 0 and from above for r < 0 |
| `Registry.CentreOf` | test+co.py:159-160 | the box centre ((x1 + x2) / 2, (y1 + y2) / 2) |
| `Registry.PathPoint` | test+co.py:164 | the point appended to a path: both centre coordinates truncated by `int` |
| `Registry.PathKeyOf` | test+co.py:163 | the path key: perspective, class and confidence in hundredths |
| `Registry.PathOf` | test+co.py:31 | the path of a key, with `defaultdict(list)`'s empty list for a key not yet seen |
| `Registry.FilterKeyOf` | test+co.py:198 | the filter key: perspective and class |
| `Registry.AppendPoint` | test+co.py:163-164 | `paths[k].append(p)` creates k if absent, ends k's list with p after its earlier points, and leaves every other key as it was |
| `Registry.PathsAfter` | test+co.py:152-164 | the paths after each of a perspective's detections, in order, has appended its point under its key |
| `Registry.PathsAfterAppends` | test+co.py:152-164 | after a perspective's detections, each key's path is its old path followed by exactly the points of the detections with that key, in order; a key exists iff it existed or got a point |
| `Registry.PointsForOtherView` | test+co.py:163 | detections of one perspective contribute no point to another perspective's keys |
| `Registry.InitFilter` | test+co.py:198-200 | a new filter is seeded at the first measured centre and has fused nothing yet |
| `Registry.Correct` | test+co.py:201-209 | a correction fuses one more measurement after the earlier ones and keeps the seed |
| `Registry.UpdateFilters` | test+co.py:198-209 | a first sighting inserts a filter seeded at the centre; a later one keeps the key set and the seed and fuses the centre after the earlier measurements; other keys are unchanged |
| `Registry.Prediction` | test+co.py:198-206 | no prediction on a first sighting; otherwise predict applied to the filter before the new measurement |
| `Registry.Predictions` | test+co.py:152-206 | the predictions of a perspective's detections, one per detection, each on the filters the earlier detections left |
| `Registry.FiltersAfter` | test+co.py:152-209 | the filters after each of a perspective's detections, in order, has been inserted or corrected under its key |
| `Registry.PredictionsAt` | test+co.py:198-209 | a run of detections yields one prediction each; the i-th is what predict gives on the filters left by the detections before it |
| `Registry.FilterFoldHistory` | test+co.py:198-209 | an existing filter keeps its seed and fuses every new measurement in order; a new one is seeded with the first and fuses the rest; without measurements no filter appears |
| `Registry.FilterFoldSnoc` | test+co.py:198-209 | one more measurement seeds the filter if there is none yet, and corrects it otherwise |
| `Registry.FiltersAfterPerKey` | test+co.py:152-209 | each filter key evolves by the centres of its own detections only, in order |
| `Registry.CentresForOtherView` | test+co.py:198 | detections of one perspective feed no centre to another perspective's filters |
| `Registry.CentresForEmpty` | test+co.py:198 | a key gets no centre iff no detection of the run has that key |
| `Registry.FirstSightingIsCold` | test+co.py:198-206 | the i-th detection yields no prediction iff its key had no filter before the run and no earlier detection of the run had that key |
| `Pipeline.GatesOf` | test+co.py:132-141 | the gate decisions of a list of perspectives have exactly those perspectives as keys |
| `Pipeline.ViewSaliency` | test+co.py:132-137 | a perspective's saliency: its sub-view of the frame against its own slot of the history, with the run's resize |
| `Pipeline.Gated` | test+co.py:137-140 | a perspective is gated when its saliency exceeds the run's threshold |
| `Pipeline.Gates` | test+co.py:123-141 | the motion flags of a tick have one entry per perspective |
| `Pipeline.GatesOfAt` | test+co.py:132-141 | in the decisions of a list of perspectives, each perspective's entry is its own gate decision |
| `Pipeline.GatesAt` | test+co.py:132-141 | each perspective's flag is its own sub-view's saliency compared with the threshold |
| `Pipeline.Turns` | test+co.py:132-164 | a tick has five turns in the fixed order; a gated perspective's turn carries its detections and any other turn carries none |
| `Pipeline.Turn` | test+co.py:140-152 | a gated perspective feeds its detections to the registries, and any other perspective feeds none |
| `Pipeline.PathsAcross` | test+co.py:132-164 | the paths after the turns of a tick, one perspective after the other |
| `Pipeline.FiltersAcross` | test+co.py:132-209 | the filters after the turns of a tick, one perspective after the other |
| `Pipeline.Rejected` | test+co.py:95-101 | a tick raises when a usable previous frame exists and the frame is narrower or shorter than 8 pixels, so the resize target is empty |
| `Pipeline.RejectedAtEveryView` | test+co.py:99-101 | a perspective's saliency fails iff a usable previous frame exists and the frame is narrower or shorter than 8 pixels, the same for all five perspectives |
| `Pipeline.PathsAcrossPerKey` | test+co.py:132-164 | across turns of distinct perspectives, a path key changes only in its own perspective's turn, by exactly that turn's points for it |
| `Pipeline.TurnOfAbsent` | test+co.py:132 | a perspective that takes no turn contributes no detections |
| `Pipeline.FiltersAcrossPerKey` | test+co.py:132-209 | across turns of distinct perspectives, a filter key evolves only in its own perspective's turn |
| `Pipeline.TurnOfAt` | test+co.py:132 | among turns of distinct perspectives, a perspective's detections are those of its own turn |
| `Pipeline.IndexOf` | test+co.py:108-114 | every perspective has its place in the visiting order |
| `Pipeline.TurnsStep` | test+co.py:132 | the registries after i + 1 turns are the registries after i turns, advanced by turn i |
| `Pipeline.Overwritten` | test+co.py:229 | the history after the listed perspectives' slots, one after the other, have received the frame |
| `Pipeline.OverwrittenAt` | test+co.py:229 | a slot already visited in the tick holds the frame; any other slot holds what it held before |
| `Pipeline.OverwrittenStep` | test+co.py:132-229 | when a perspective is visited its slot still holds the previous tick's frame, and the visit then stores the new frame there |
| `Pipeline.OverwrittenAll` | test+co.py:132-229 | after the five visits every slot holds the whole input frame, gated or not |
| `Pipeline.FlagsAt` | test+co.py:123-141 | a perspective's flag is raised iff it was raised already or the perspective was visited and gated |
| `Pipeline.Flags` | test+co.py:123-141 | the motion flags after the listed perspectives, one after the other, have been raised when gated |
| `Pipeline.FlagsStep` | test+co.py:140-141 | visiting a perspective raises its flag iff it is gated |
| `Pipeline.FlagsAll` | test+co.py:123-141 | starting from all flags down, the flags after the five visits are exactly the gate decisions |
| `Pipeline.FlagsKeys` | test+co.py:123-141 | raising flags adds no perspective that is not already flagged or gated |
| `Pipeline.TakeTurn` | test+co.py:140-209 | a visited perspective advances the registries by its detections when gated, and leaves them as they were otherwise |
| `Pipeline.TurnsOfView` | test+co.py:132 | in a tick each perspective takes exactly one turn, with its own detections |
| `Pipeline.TickPerKey` | test+co.py:132-209 | over one tick, a path grows by the points of its own perspective's gated detections, in order; a filter fuses the centres of its own perspective's gated detections, in order, after its seed, or is created from the first of them |
| `Pipeline.QuietTurns` | test+co.py:140-209 | turns without detections leave both registries unchanged |
| `Pipeline.FirstTickIsQuiet` | test+co.py:95-141 | on the first tick no perspective is gated and both registries are left as they were |
| `Pipeline.Tracker.constructor` | test+co.py:31-114 | the tracker starts with empty paths, empty filters and an empty slot per perspective |
| `Pipeline.Tracker.RecordPath` | test+co.py:163-164 | one append to `paths`; filters and history are unchanged |
| `Pipeline.Tracker.UpdateFilter` | test+co.py:198-209 | one Kalman step on `kalman_filters`, returning no prediction on a first sighting and predict's output otherwise |
| `Pipeline.Tracker.ObserveView` | test+co.py:152-209 | the loop over a gated perspective's boxes leaves the registries as the specification functions say, leaves the history alone, and returns every box's prediction |
| `Pipeline.Tracker.Look` | test+co.py:134-140 | a perspective's saliency fails iff the tick is rejected, and its gate is the perspective's gate decision |
| `Pipeline.Tracker.Remember` | test+co.py:229 | `previous_frames[perspective] = frame.copy()` overwrites that one slot |
| `Pipeline.Tracker.Visit` | test+co.py:132-229 | one pass of the loop body: it raises only on the first perspective of a rejected tick, changing nothing; otherwise flags, history and registries advance by exactly this perspective's turn |
| `Pipeline.Tracker.Tick` | test+co.py:121-229 | one frame: it raises, changing nothing, iff the tick is rejected; otherwise the flags are the gate decisions, the registries are the fold of the five turns in the fixed order, and every slot holds the whole frame |

## Left out

- Saliency.KeepsShape: OpenCV's Python binding returns a two-dimensional array when it resizes a single-channel image, so the channel count is not kept there. The model's saliency therefore does not describe single-channel images. A run's frames are three-channel BGR (`Pipeline.Bgr`), the only images the main loop resizes.
- Registry.CentreOf: the box corners are float32 values, so `(x1 + x2) / 2` is rounded float32 arithmetic before `int`; the model takes the exact centre. Near an integer the two can differ: for x1 = 512 - 2^-15 and x2 = 512 the float32 sum rounds to 1024, giving x = 512, while the exact centre truncates to 511.
- Saliency.DetectSaliency: `np.mean` returns a float64 rounded from the exact mean; the model returns the exact rational mean. The gate decision agrees for any realistic sample count.
- Video capture, end of stream and the `q` key (test+co.py:11-16, 117-121, 231-242) are I/O. `Tick` handles one frame, and the loop over frames is not modelled.
- The detector (test+co.py:8, 144-156) is a foreign call. Its boxes come in as a parameter per perspective. The `isinstance(results, list)` check and the unused `model.names` lookup are therefore not modelled. `model.track` is asked only for classes 0, 2 and 3 (test+co.py:144); the model accepts any integer class.
- Drawing and display (test+co.py:145, 175-195, 212, 214-226), including the rightmost region of interest, only produce output. The predicted points that are only drawn are still returned by `ObserveView`.
- The angular mapping (test+co.py:166-172) is floating point and feeds only drawing.
- `cv2.resize` (test+co.py:99-101) is a foreign interpolation routine. It is a parameter known only by the shape it returns. That it refuses a zero-sided target is modelled as `SaliencyError`.
- The Kalman filter's numerics (test+co.py:37-61) are float32 linear algebra inside OpenCV. A filter is modelled by its history (seed and fused measurements), and predict is a parameter applied to that history.
- `random.randint` (test+co.py:27) is randomness, and the `print` of the threshold (test+co.py:28) is output. The threshold is a parameter of the run, constrained to [120, 140].
- Perspective.FovExtent: `int(W * 90 / 360)` goes through a float; the model takes the exact quotient, which agrees for every frame size a video can have.
- Registry.PathKeyOf: the confidence formatted with two decimals in the path key is modelled as an integer number of hundredths, and the class id as an integer.
- Pipeline.Tracker.Tick: in the source a rejected tick raises an exception that ends the script. The model returns `Err` and leaves the state as it was, which is what the script's dictionaries hold at the moment of the raise.
- Pipeline.Tracker.Tick: requires a frame of the capture's declared size and shape, which the script assumes of `cap.read`.

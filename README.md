# Real-and-Virtual-Fusion: a verified model of the pose pipeline

This project models the per-frame core of a webcam application. The application detects a human pose and draws a cartoon stick figure over it. The model has three parts. It is written in Dafny, and every contract below is proved.

- **Temporal smoother** (`PoseSmoother`). It holds a bounded FIFO of recent landmark lists and a smoothing factor clamped to [0, 0.95]. `apply_smoothing` pushes the current frame. It then blends each landmark's x, y and z with a triangular-weighted moving average over the held frames. Fewer than three held frames pass the input through.
- **Character renderer** (`CharacterRenderer`). It cycles through four colour schemes. It turns one detected pose into the display list of OpenCV calls that `draw_character` issues: head disc and outline, torso polygon, four limbs drawn by `_draw_limb` as segments plus joint discs, eyes, nose and smile.
- **Detector adapter** (`PoseDetector.get_landmark_positions`). It maps 17 named MediaPipe indices to truncated pixel coordinates and carries the visibility through.

The modules are:

- `Landmarks` (landmarks.dfy): the landmark type, Python's truncating `int()`, and an `Option` result for the IndexError that `get_landmark_positions` and `draw_character` raise on a short landmark list (the smoother's IndexError is `Smoother.Outcome.IndexError`).
- `Smoother` (pose_smoother.dfy).
- `Renderer` (character_renderer.dfy).
- `Detector` (pose_detector.dfy).

Arithmetic is exact:

- Coordinates are `real`.
- Pixel coordinates are `int(c * extent)`, which truncates toward zero.
- The head radius `int(sqrt(d2) * 5)` is the integer square root of `25 * d2`.
- Python's `//` and `%` by positive constants are Dafny's Euclidean `/` and `%`, which agree with them on every integer.

The smoother history is a `seq` field that the methods reassign. The blending loop of `apply_smoothing` writes a fresh `array` copy of the input landmark by landmark, as the source writes its deep copy. A ghost log `pushed` records every frame fed since construction or reset. The class invariant says the history is the last `maxHistory` entries of that log.

Behaviour of the source that the model keeps:

- Pixel coordinates truncate toward zero.
- A landmark list shorter than 29 entries raises IndexError both in `get_landmark_positions` and in `draw_character`; the model returns `None` there. `draw_character` reads every landmark before drawing, so nothing is drawn.
- A held frame with fewer landmarks than the current one makes `frame[i]` raise IndexError in `apply_smoothing`, after the push. This is `Outcome.IndexError`.
- Joint discs have radius `thickness // 2`: 15 // 2 = 7 for arms and 20 // 2 = 10 for legs.

## Model

| member | source | states |
|---|---|---|
| `Landmarks.Trunc` | character_renderer.py:63-67 | Python's `int()` on a real: never farther from zero than the argument, and less than one away from it, for both signs |
| `Landmarks.TruncatesTowardZero` | character_renderer.py:63-67 | truncation is not rounding: 0.999 of 100 pixels is pixel 99, -0.005 of it is pixel 0, and 0.5 of 641 is pixel 320 |
| `Landmarks.ToPixel` | character_renderer.py:63-67 | `int(c * extent)`, as in `transform_x`/`transform_y` and at pose_detector.py lines 52-53: the pixel is the truncation of the scaled coordinate, within one pixel of it and never farther from zero |
| `Landmarks.PixelInsideImage` | pose_detector.py:52-53 | a coordinate in [0, 1) projects to a pixel in [0, extent) |
| `Smoother.Push` | pose_smoother.py:40-44 | append then pop-oldest: the result is `old + [p]` or that with its first element dropped, and not dropped exactly when the length stays within `maxHistory`; a history within capacity stays within it; for a positive `maxHistory`, the current frame is the last entry |
| `Smoother.Window` | pose_smoother.py:40-44 | a FIFO of capacity `maxHistory` fed a sequence holds its suffix of length `min(len, maxHistory)`, and nothing for a non-positive capacity |
| `Smoother.PushKeepsWindow` | pose_smoother.py:40-44 | pushing onto the window of all frames fed so far gives the window of those frames plus the new one, so the history is always the most recent frames, oldest first |
| `Smoother.Weight` | pose_smoother.py:60 | the triangular weight `(j + 1) / N` is positive |
| `Smoother.WeightedSum` | pose_smoother.py:58-64 | the definition of `sumX`/`sumY`/`sumZ` after the first `k` frames: frame `j`'s coordinate times `(j + 1) / N`, summed oldest first; its properties are `AccumulateFrame`, `WeightedSumScaled` and `ColumnSumBounds` |
| `Smoother.TotalWeight` | pose_smoother.py:55-65 | the accumulated total weight is non-negative, and positive once a frame is visited, so the division at lines 68-70 is defined |
| `Smoother.WeightedAverage` | pose_smoother.py:68-70 | the definition `avgX = sumX / total_weight` over the whole history, per axis; its properties are `AverageWithinBounds`, `AverageOfConstant` and `WeightedAverageClosedForm` |
| `Smoother.Blend` | pose_smoother.py:73-75 | `raw * (1 - alpha) + avg * alpha`: the raw value for factor 0, the average for factor 1, and the common value when the two agree |
| `Smoother.SmoothLandmark` | pose_smoother.py:73-75 | landmark `i` of the output, with x, y and z blended with their averages; its visibility is the input's |
| `Smoother.Smooth` | pose_smoother.py:24-77 | the result of `apply_smoothing` on the post-push history: passthrough below three frames; IndexError exactly when at least three are held and one is shorter than the input; otherwise as many landmarks as the input, each with its visibility kept |
| `Smoother.AccumulateFrame` | pose_smoother.py:58-65 | visiting frame `j` adds its weighted coordinates to the three running sums and its weight to the total |
| `Smoother.AveragesAt` | pose_smoother.py:51-70 | the inner loop succeeds exactly when every held frame has landmark `i`, and then returns the weighted averages on x, y and z |
| `Smoother.BlendedIsSmoothLandmark` | pose_smoother.py:73-75 | the landmark the loop body writes from the three averages is `SmoothLandmark`, the blended landmark |
| `Smoother.BlendNext` | pose_smoother.py:51-75 | writing landmark `i` keeps the loop state: landmarks before `i + 1` blended, the rest still the input |
| `Smoother.SmoothHeld` | pose_smoother.py:51-77 | the averaging and blending loops over at least three held frames return `Smooth` of the history and the input |
| `Smoother.SmoothLandmarkCoord` | pose_smoother.py:73-75 | each output coordinate is `raw * (1 - alpha) + avg * alpha` on its own axis, and visibility is not rewritten |
| `Smoother.ZeroFactorIsIdentity` | pose_smoother.py:73-75 | with factor 0 a smoothed result is the input itself, whatever the history |
| `Smoother.ColumnSumBounds` | pose_smoother.py:58-65 | with positive weights, values in [lo, hi] give a weighted sum between lo and hi times the total weight |
| `Smoother.AverageWithinBounds` | pose_smoother.py:58-70 | the weighted average is a convex combination: it lies between any bounds of the held values |
| `Smoother.BlendWithinBounds` | pose_smoother.py:73-75 | a blend with factor in [0, 1] stays within bounds shared by the raw value and the average |
| `Smoother.SmoothedWithinHeldRange` | pose_smoother.py:40-75 | with factor in [0, 1], every output coordinate lies between the least and greatest value of that coordinate over the held frames, the current frame included |
| `Smoother.AverageOfConstant` | pose_smoother.py:58-70 | held frames that agree on a coordinate average to that value |
| `Smoother.SteadyCoordinateIsKept` | pose_smoother.py:58-75 | when every held frame agrees with the input on one coordinate, the output keeps the input's value there, for any factor |
| `Smoother.ConstantStreamIsFixedPoint` | pose_smoother.py:24-77 | when every held frame equals the input, the output is the input |
| `Smoother.WeightedSumScaled` | pose_smoother.py:58-65 | `N` times the accumulated weighted sum is `Σ (j + 1) · v_j` |
| `Smoother.TotalWeightScaled` | pose_smoother.py:58-65 | `2 N` times the accumulated total weight is `k (k + 1)` |
| `Smoother.WeightedAverageClosedForm` | pose_smoother.py:58-70 | the average equals `Σ (j + 1) · v_j / (N (N + 1) / 2)`: the `1 / N` of the weights cancels |
| `Smoother.LinearRampScenario` | pose_smoother.py:58-75 | a nose moving 0.40 to 0.44 over five frames with factor 0.8 averages to 32/75 and is smoothed to 161/375, strictly between the average and the raw value, with y and z unchanged |
| `Smoother.Raised` | pose_smoother.py:18 | `min(0.95, f + step)`: never above 0.95, either `f + step` or 0.95, and not below `f` for an in-range factor and non-negative step |
| `Smoother.Lowered` | pose_smoother.py:22 | `max(0.0, f - step)`: never below 0, either `f - step` or 0, and not above `f` for an in-range factor and non-negative step |
| `Smoother.Adjusted` | main.py:78-83 | the definition of the factor after a sequence of `increase_smoothing`/`decrease_smoothing` key presses, applied in order; its property is `AdjustedStaysInRange` |
| `Smoother.AdjustedStaysInRange` | pose_smoother.py:16-22 | any sequence of increases and decreases by non-negative steps keeps an in-range factor in [0, 0.95]: saturation, no escape |
| `Smoother.PoseSmoother.constructor` | pose_smoother.py:6-10 | empty history, the given capacity and factor (defaults 15 and 0.8), invariant established |
| `Smoother.PoseSmoother.ResetHistory` | pose_smoother.py:12-14 | empties the history and keeps the invariant; capacity and factor are outside its frame and so unchanged |
| `Smoother.PoseSmoother.IncreaseSmoothing` | pose_smoother.py:16-18 | the factor becomes `Raised(old, step)` (default step 0.05), never above 0.95; nothing else changes |
| `Smoother.PoseSmoother.DecreaseSmoothing` | pose_smoother.py:20-22 | the factor becomes `Lowered(old, step)`, never below 0; nothing else changes |
| `Smoother.PoseSmoother.Remember` | pose_smoother.py:40-44 | the history becomes `Push(old, frame, maxHistory)`, the frame is logged, and the history stays the window of the log |
| `Smoother.PoseSmoother.ApplySmoothing` | pose_smoother.py:24-77 | the frame is always pushed, with the history kept as the window of all pushed frames, and the result is `Smooth` of the new history and the frame |
| `Renderer.NextScheme` | character_renderer.py:40 | `(i + 1) % 4` lands in [0, 4), steps 0-2 up by one and wraps 3 to 0 |
| `Renderer.Advance` | character_renderer.py:38-41 | the definition of the scheme after `k` `next_color_scheme` calls, `NextScheme` applied `k` times; its properties are `AdvanceIsModular` and `FourSwitchesRestore` |
| `Renderer.AdvanceIsModular` | character_renderer.py:38-41 | `k` switches from a valid scheme reach `(i + k) % 4` |
| `Renderer.FourSwitchesRestore` | character_renderer.py:38-41 | four switches restore the starting scheme, and one to three never do |
| `Renderer.Segments` | character_renderer.py:157-158 | `len(points) - 1` antialiased lines, line `i` from `points[i]` to `points[i + 1]` |
| `Renderer.Joints` | character_renderer.py:161 | `points[1:-1]`: the interior points, element by element, empty for fewer than two points |
| `Renderer.Discs` | character_renderer.py:161-162 | one filled disc of radius `thickness // 2` per given point, in order |
| `Renderer.SegmentsThenDiscs` | character_renderer.py:157-162 | segments followed by the interior discs form a limb: `2n - 3` primitives for `n >= 2` points, lines first, and every primitive is drawable for a positive thickness |
| `Renderer.DrawLimb` | character_renderer.py:154-162 | `_draw_limb`: lines from each point to the next, then a disc on each interior point; drawable for a positive thickness |
| `Renderer.ThreeJointLimb` | character_renderer.py:157-162 | a three-point limb is two lines and one disc on the middle point |
| `Renderer.ISqrt` | character_renderer.py:70-76 | the integer square root: `r * r <= n < (r + 1) * (r + 1)` |
| `Renderer.ISqrtUnique` | character_renderer.py:70-76 | any `r` bracketing `n` that way is `ISqrt(n)` |
| `Renderer.SquaredDistance` | character_renderer.py:72-73 | the squared pixel eye distance is a natural number, 0 for coincident eyes |
| `Renderer.HeadSize` | character_renderer.py:70-76 | the radius is at least 30; it is exactly 30 iff `25 d2 < 31²`; above 30 it is `floor(5 · sqrt(d2))` |
| `Renderer.CoincidentEyesGiveMinimumHead` | character_renderer.py:70-76 | eyes on one pixel give radius 30 |
| `Renderer.HeadSizeExamples` | character_renderer.py:70-76 | eyes 10 pixels apart give radius 50; 3 pixels apart, or a 3-4-5 offset, give the minimum 30 |
| `Renderer.Project` | character_renderer.py:63-67 | the definition of the pixel pair `(transform_x(l.x), transform_y(l.y))`, built from `ToPixel` on each axis |
| `Renderer.Joint` | character_renderer.py:46-60 | the definition of the pixel of the landmark at a given index: `Project` of `landmarks.landmark[index]` |
| `Renderer.Torso` | character_renderer.py:93-98 | the torso polygon has four vertices: left shoulder, right shoulder, right hip, left hip, in that order |
| `Renderer.DrawHead` | character_renderer.py:77-90 | a filled head-coloured disc then a black outline of width 2 of the same circle on the nose; drawable for a non-negative radius |
| `Renderer.DrawBody` | character_renderer.py:93-100 | the torso filled in the body colour, then the same vertices as a closed black polyline of width 2; drawable for a non-empty polygon |
| `Renderer.DrawFace` | character_renderer.py:143-152 | black eye discs of radius `h // 6`, a red nose disc of `h // 8`, and a 0-180 degree black smile arc with axes `(h // 2, h // 4)` centred `h // 3` below the nose |
| `Renderer.DrawLimbs` | character_renderer.py:102-140 | the four limbs give twelve drawable primitives |
| `Renderer.LimbPrimitives` | character_renderer.py:102-140 | the twelve limb primitives one by one: left arm, right arm, left leg, right leg, each upper line, lower line, elbow or knee disc; arms 15 thick with 7-pixel discs, legs 20 with 10-pixel discs |
| `Renderer.FourLimbs` | character_renderer.py:102-140 | the same twelve-primitive list stated for any twelve joint pixels |
| `Renderer.Draw` | character_renderer.py:43-152 | `draw_character`'s display list has twenty primitives, every one `Drawable`: non-negative radii and half-axes, positive or filled stroke widths, a non-empty polygon |
| `Renderer.DrawOrder` | character_renderer.py:77-152 | the head is at positions 0-1, the torso at 2-3, the limbs at 4-15 and the face at 16-19, sized from the eye pixels and anchored on the nose pixel |
| `Renderer.SmileInsideHead` | character_renderer.py:150-152 | for any positive head radius, the smile's farthest reach lies strictly inside the head circle |
| `Renderer.CharacterRenderer.constructor` | character_renderer.py:35-36 | scheme 0 with its palette active |
| `Renderer.CharacterRenderer.NextColorScheme` | character_renderer.py:38-41 | the index becomes `NextScheme(old)` and the active palette is the one it names |
| `Renderer.CharacterRenderer.DrawCharacter` | character_renderer.py:43-60 | no result, for IndexError, exactly when the list stops before index 28; otherwise `Draw` with the active palette |
| `Detector.TableIndices` | pose_detector.py:29-47 | the table has 17 entries, every index at most 28, the last one 28 |
| `Detector.TableNamesDistinct` | pose_detector.py:29-47 | the 17 names are pairwise distinct |
| `Detector.LongEnoughForTable` | pose_detector.py:29-50 | every table index is readable exactly when the landmark list has more than 28 entries |
| `Detector.PositionOf` | pose_detector.py:51-55 | an entry holds `int(x * width)`, `int(y * height)` and the landmark's own visibility |
| `Detector.StoreNext` | pose_detector.py:49-55 | storing the next entry's position under its name extends the filled prefix of the table |
| `Detector.StoreFresh` | pose_detector.py:51-55 | storing under a new distinct name adds exactly that key and leaves earlier entries untouched |
| `Detector.ProjectTable` | pose_detector.py:49-57 | for a table with distinct names: no result exactly when some index is past the list; otherwise keys are exactly the table's names, one per entry, each holding the projected landmark at its index |
| `Detector.GetLandmarkPositions` | pose_detector.py:24-57 | no result exactly when the list has at most 28 landmarks; otherwise exactly the 17 names as keys, each with the projected position of its landmark |
| `Detector.IndexOf` | pose_detector.py:29-47 | table lookup: absent exactly when no entry has the name, else some entry pairs the name with the index found |
| `Detector.IndexOfEntry` | pose_detector.py:29-47 | with distinct names, looking up entry `k`'s name finds entry `k`'s index |
| `Detector.RendererIndicesAgree` | pose_detector.py:29-46 | for each of the 15 body points the renderer reads, the table gives the index the renderer uses |
| `Detector.PositionByName` | pose_detector.py:49-55 | a name in the result holds the projected position of the landmark its table entry points at |

## Left out

- OpenCV rasterisation is not modelled: no pixels and no antialiasing. Each drawing call is a `Primitive` value carrying its parameters, and the canvas argument is dropped.
- MediaPipe detection is not modelled: `PoseDetector.__init__` and `detect_pose` wrap a third-party model. The landmark list it returns is an input here, and so is image conversion.
- main.py and ui_manager.py are not part of this model: camera capture, the window, FPS from the wall clock, text overlay and key dispatch are I/O. The values 15 and 0.8 that main.py passes are the constructor defaults here.
- svg_creater.py, create_character.py and config.py are not part of this model: they hold SVG asset generation with random colours and file writes, and unused constants.
- test.py is not part of this model: it drives a camera.
- Floating point is not modelled: coordinates, weights and the smoothing factor are exact reals. No claim is made about bit-exact agreement with Python floats, such as `0.8 + 0.05` or `sqrt` rounding before truncation.
- `Renderer.Draw` requires a landmark at index 28. The class method `DrawCharacter` handles the shorter list, which raises IndexError in the source.
- The palette list is an instance attribute in the source; the model keeps it as the module constant `ColorSchemes`, since nothing modifies it.
- A landmark list is modelled as a value (`seq`), so aliasing between the caller's landmark object and its deep copy is not modelled. The source's in-place writes go to a copy and never reach the input, which the value model reflects.
- The history is a `seq` that the methods reassign, not a list mutated in place by `append` and `pop(0)`; the observable contents are the same.
- Pixel coordinates are unbounded ints: the `np.int32` cast of the torso vertices (character_renderer.py:93-98) and OpenCV's 32-bit int arguments are not modelled, so a coordinate far outside [0, 1] that would overflow 32 bits still gives a `Drawable` primitive here.

# itk-viewer core, modelled in Dafny

This project models the logic at the core of itk-viewer, a viewer for large
multiscale images. The viewer is a set of xstate machines in TypeScript,
plus Python services around them. The model covers the following parts.

- **Multiscale images** (`packages/io`):
  - the dimension helpers (`ensuredDims`, `toDimensionMap`, `orderBy`, `chunk`);
  - bounding boxes and their transformation;
  - `MultiscaleSpatialImage`: world bounds to clamped index bounds, the chunk-index loop, voxel and byte counts, the image cache;
  - the OME-Zarr reader: the `isZarr` pattern, transform composition, scale transforms, coordinates, chunk counts and chunk paths;
  - the Zarr store parser;
  - the itk-wasm image reader;
  - the range computation split.
- **Viewer machines** (`packages/viewer`):
  - the viewer registry and its `setImage` broadcast;
  - the image actor's colour ranges and opacity points;
  - the camera;
  - the 2D view: slice axis, slice position and slice index;
  - the image builder;
  - the two fps watchers.
- **Remote viewport** (`packages/remote-viewport`):
  - the renderer-state merge and command queue;
  - the command loop's queue-to-staged hand-off;
  - the scale guard;
  - the command translation, camera-pose insertion and de-duplication pipeline.
- **Transfer-function editor** (`packages/transfer-function-editor`):
  - `Point` with clamped setters;
  - the sorted `Points` container and `extendPoints`;
  - `windowPointsForSort`, `getNodes` and the colour helpers;
  - `ColorRange`, `DataRange`, the or-gates and the wheel zoom.
- **Python services**:
  - the agave renderer's event dispatch;
  - the viewer and data-manager state machines;
  - the pydantic model;
  - the remote Zarr store wrapper.

The form of each part follows its source:
- Code that updates objects in place becomes Dafny classes. Their methods state the whole new state with `old`.
- Loops become methods with invariants, proved against a specification function.
- Pure helpers become functions and lemmas.
- The shared module `JsCommon` (`common.dfy`) provides JavaScript's vocabulary:
  - `Option` and `Result`;
  - `Num` for a number that may be NaN or infinite;
  - ordered records `seq<(K, V)>` for JavaScript objects and Maps, where insertion order matters.

Matrix algebra (`mat4`), rendering, workers, the network and the clock are not modelled. They appear as function parameters or recorded messages where the logic depends on them.

Where the specification and the code differ, the model follows the code:
- The agave renderer handles only `density`, `cameraPose` and `renderIterations`.
- The Python viewer's shutdown does not cascade to the data manager.
- `ImageData` does not enforce that exactly one of its fields is set.
- The data-manager machine declares no `SetImage` event, so the viewer's `set_image` always fails with `TransitionNotAllowed`.

For each defect under "## Findings", the model holds both the code as
written and the corrected version. "## Left out" names each member that
follows the correction instead of the code.

## Model

| member | source | states |
|---|---|---|
| JsCommon.Div | packages/viewer/src/camera.ts:120 | JavaScript division: finite exactly when the divisor is non-zero, and then the quotient times the divisor is the dividend |
| JsCommon.Round | packages/viewer/typescript/src/view-2d.ts:129-132 | `Math.round` rounds half up: the result is within one half of x, above on ties |
| JsCommon.RoundMonotone | packages/viewer/src/image-builder.ts:166 | `Math.round` never reverses the order of its arguments |
| JsCommon.ClampToSize | packages/viewer/src/image-builder.ts:168-171 | `Math.max(0, Math.min(i, size - 1))`: an index in range is kept, one past the end becomes the last index, a negative one becomes 0 |
| JsCommon.DigitsValueOfString | packages/viewer/src/viewer-machine.ts:79 | `String(n)` is read back as n by `Number`: the decimal rendering round-trips |
| JsCommon.NatToStringInjective | packages/viewer/src/viewer-machine.ts:79 | distinct numbers print as distinct id strings |
| JsCommon.Get | packages/io/src/dimensionUtils.ts:11 | `map.get(k)` finds a value exactly when the key is present, and that value is stored under k |
| JsCommon.PutGet | packages/remote-viewport/src/remote-machine.ts:304-309 | after writing k, reading k gives the new value and every other key reads as before |
| JsCommon.PutKeys | packages/io/src/dimensionUtils.ts:11 | writing an existing key keeps the key order; writing a new key appends it at the end |
| JsCommon.PutKeyOrigin | packages/remote-viewport/src/remote-machine.ts:304-309 | every key after a write is the written key or was already there |
| JsCommon.PutUnique | packages/remote-viewport/src/remote-machine.ts:304-309 | a write keeps the keys unique |
| AgaveRenderer.Subscript | packages/agave-renderer/itk_viewer_agave_renderer/renderer.py:72-76 | a payload lookup succeeds exactly when the payload is a dictionary holding the key, and then yields that key's value |
| AgaveRenderer.FirstThree | packages/agave-renderer/itk_viewer_agave_renderer/renderer.py:73-77 | indexing coordinates 0, 1 and 2 yields the first three items of a list and fails on a shorter list or a non-sequence |
| AgaveRenderer.CameraPose | packages/agave-renderer/itk_viewer_agave_renderer/renderer.py:71-77 | the camera-pose case prints nothing and makes at most the three calls eye, up, target |
| AgaveRenderer.CameraPoseRaises | packages/agave-renderer/itk_viewer_agave_renderer/renderer.py:71-77 | the pose is applied without raising exactly when eye, up and target are all present with three coordinates, and then all three calls are made |
| AgaveRenderer.HandleUnknown | packages/agave-renderer/itk_viewer_agave_renderer/renderer.py:83-90 | ERROR raises "Unknown event type: …", WARNING prints that message once, IGNORE does nothing; no client call in any case |
| AgaveRenderer.Chain | packages/agave-renderer/itk_viewer_agave_renderer/renderer.py:67-81 | the effects of no events are no effects |
| AgaveRenderer.ChainAppend | packages/agave-renderer/itk_viewer_agave_renderer/renderer.py:67-81 | running two runs of events one after the other is the first run, then the second only if the first did not raise |
| AgaveRenderer.ChainStep | packages/agave-renderer/itk_viewer_agave_renderer/renderer.py:67-81 | one more loop pass adds the event's effects when nothing raised before |
| AgaveRenderer.ChainStops | packages/agave-renderer/itk_viewer_agave_renderer/renderer.py:67-81 | an exception ends the loop: later events change nothing |
| AgaveRenderer.Handled | packages/agave-renderer/itk_viewer_agave_renderer/renderer.py:67-81 | each event is dispatched on its own type and payload |
| AgaveRenderer.BatchAppend | packages/agave-renderer/itk_viewer_agave_renderer/renderer.py:67-81 | events are handled in list order, stopping at the first exception |
| AgaveRenderer.HandledAppend | packages/agave-renderer/itk_viewer_agave_renderer/renderer.py:67-81 | dispatching a concatenated list is dispatching each part |
| AgaveRenderer.BatchStep | packages/agave-renderer/itk_viewer_agave_renderer/renderer.py:67-81 | after a prefix that did not raise, the next event's effects follow it |
| AgaveRenderer.BatchStops | packages/agave-renderer/itk_viewer_agave_renderer/renderer.py:67-81 | after a prefix that raised, the later events have no effect |
| AgaveRenderer.UnknownUnderError | packages/agave-renderer/itk_viewer_agave_renderer/renderer.py:80-86 | under ERROR an unknown event type raises its message and ends the batch there |
| AgaveRenderer.UnknownOtherwise | packages/agave-renderer/itk_viewer_agave_renderer/renderer.py:80-90 | under WARNING or IGNORE an unknown event type never stops the batch and makes no client call |
| AgaveRenderer.Renderer.constructor | packages/agave-renderer/itk_viewer_agave_renderer/renderer.py:40-43 | width 500, height 400 and WARNING by default; no client yet |
| AgaveRenderer.Renderer.Setup | packages/agave-renderer/itk_viewer_agave_renderer/renderer.py:45-48 | setup creates a client and sets its resolution to the renderer's width and height |
| AgaveRenderer.Renderer.HandleUnknownEvent | packages/agave-renderer/itk_viewer_agave_renderer/renderer.py:83-90 | the unknown-event policy applied to the renderer's state: raises, prints or does nothing |
| AgaveRenderer.Renderer.HandleOne | packages/agave-renderer/itk_viewer_agave_renderer/renderer.py:68-81 | one loop pass: the calls and prints of the event's case are appended |
| AgaveRenderer.Renderer.SendCameraPose | packages/agave-renderer/itk_viewer_agave_renderer/renderer.py:71-77 | eye, up and target reach the client one after the other, stopping at the first missing entry |
| AgaveRenderer.Renderer.HandleAt | packages/agave-renderer/itk_viewer_agave_renderer/renderer.py:67-81 | the loop state after event i is the chained effects of the first i+1 events |
| AgaveRenderer.Renderer.UpdateRenderer | packages/agave-renderer/itk_viewer_agave_renderer/renderer.py:64-81 | without setup the method fails on the missing client; otherwise the client receives exactly the batch's calls, in order, up to the first exception |
| BoundingBox.CreateBounds | packages/wasm-utils/src/bounding-box.ts:12-21 | a fresh copy of the initial bounds (min +MAX_VALUE, max -MAX_VALUE per axis), so that adding one point gives that point's degenerate box |
| BoundingBox.AddedPointGrows | packages/wasm-utils/src/bounding-box.ts:23-32 | after adding a point each minimum is the smaller and each maximum the larger of the old bound and the coordinate; the box then contains the point, is well ordered, and still contains every point it contained |
| BoundingBox.AddToEmpty | packages/wasm-utils/src/bounding-box.ts:12-32 | adding a point to the initial bounds gives exactly that point's box |
| BoundingBox.AddToEmptyAt | packages/wasm-utils/src/bounding-box.ts:12-32 | entry i of the initial bounds after one point is that point's coordinate along axis i/2 |
| BoundingBox.AddedPointCommutes | packages/wasm-utils/src/bounding-box.ts:23-32 | adding points commutes and adding the same point twice changes nothing |
| BoundingBox.AddedPointsContain | packages/wasm-utils/src/bounding-box.ts:23-32 | the box after a run of points contains every one of them |
| BoundingBox.AddedPointsAttained | packages/wasm-utils/src/bounding-box.ts:23-32 | every bound after a run of points is either the starting bound or some point's coordinate |
| BoundingBox.EmptyBoxTight | packages/wasm-utils/src/bounding-box.ts:12-32 | starting from the initial bounds, every bound is attained by one of the added points: the box is the tightest one |
| BoundingBox.FirstPointTight | packages/wasm-utils/src/bounding-box.ts:23-32 | a bound set by the first point is attained by some point of the run |
| BoundingBox.ContainedStays | packages/wasm-utils/src/bounding-box.ts:23-32 | a point inside the box stays inside whatever points are added |
| BoundingBox.AddPoint | packages/wasm-utils/src/bounding-box.ts:23-32 | the array is updated in place to the box grown by the point, and the same array is returned |
| BoundingBox.CornerAtBits | packages/wasm-utils/src/bounding-box.ts:34-45 | corner number 4·ix + 2·iy + iz picks the min or max of each axis by the bits ix, iy, iz |
| BoundingBox.GetCorners | packages/wasm-utils/src/bounding-box.ts:34-45 | a fresh array of eight corners, corner 4·ix + 2·iy + iz being (bounds[ix], bounds[2+iy], bounds[4+iz]) |
| BoundingBox.CornersInside | packages/wasm-utils/src/bounding-box.ts:34-45 | every corner of a well-ordered box lies in the box |
| BoundingBox.GetLength | packages/wasm-utils/src/bounding-box.ts:47-49 | the length along axes 0 to 2 is max minus min; any other index reads missing entries and gives NaN |
| BoundingBox.LengthSign | packages/wasm-utils/src/bounding-box.ts:12-32 | lengths are non-negative once a point was added, and negative on the initial bounds |
| Camera.PoseAfter | packages/viewer/src/camera.ts:105-114 | a setPose takes the event's center and distance, and its rotation only while rotation is enabled; otherwise the old rotation is kept |
| Camera.RotationLocked | packages/viewer/src/camera.ts:105-114 | with rotation disabled no run of setPose events changes the rotation, while center and distance follow the last event |
| Camera.RatioAfter | packages/viewer/src/camera.ts:115-121 | without a parallel scale the ratio is unchanged; with one it is parallelScale / distance, finite exactly when the distance is non-zero |
| Camera.Without | packages/viewer/src/camera.ts:147-157 | watchPoseStop leaves exactly the other watchers |
| Camera.WithoutConcat | packages/viewer/src/camera.ts:147-157 | removing a watcher from a concatenation removes it from each part |
| Camera.WithoutAbsent | packages/viewer/src/camera.ts:147-157 | removing a watcher that is not there changes nothing |
| Camera.WatchThenStop | packages/viewer/src/camera.ts:132-157 | watching then stopping a new watcher restores the watcher list |
| Camera.Broadcast | packages/viewer/src/camera.ts:77-88 | emitNewPose sends one setCameraPose message to each watcher, in list order |
| Camera.CameraActor.constructor | packages/viewer/src/camera.ts:23-27 | initial pose (center 0, identity rotation, distance 1), rotation enabled, ratio 1, field of view 50, no watchers (context at 93-99) |
| Camera.CameraActor.SetPose | packages/viewer/src/camera.ts:103-131 | setPose updates the pose and the ratio as above and broadcasts the new pose and ratio to every watcher; nothing else changes |
| Camera.CameraActor.WatchPose | packages/viewer/src/camera.ts:132-146 | the watcher is appended and sent the current pose and ratio |
| Camera.CameraActor.WatchPoseStop | packages/viewer/src/camera.ts:147-158 | every occurrence of the watcher is removed; no message is sent |
| Camera.CameraActor.SetEnableRotation | packages/viewer/src/camera.ts:159-163 | only the rotation flag changes |
| ColorRange.Xs | packages/transfer-function-editor/lib/ColorRange.ts:57 | the colour range lists the x of each point, in list order |
| ColorRange.SortPair | packages/transfer-function-editor/lib/ColorRange.ts:56 | sorting two points by x keeps them in place when already ordered and swaps them otherwise |
| ColorRange.InitialPoints | packages/transfer-function-editor/lib/ColorRange.ts:50-54 | the range starts with the points (0, 0) and (1, 0), ids 0 and 1, in that order |
| ColorRange.AssignStep | packages/transfer-function-editor/lib/ColorRange.ts:78-80 | setting the x of one point and re-sorting keeps the same two points, the moved one with its new x |
| ColorRange.SortedPairXs | packages/transfer-function-editor/lib/ColorRange.ts:56-57 | the x values of the sorted pair are the minimum then the maximum of the two |
| ColorRange.ColorRange.constructor | packages/transfer-function-editor/lib/ColorRange.ts:49-69 | a fresh two-point list at x = 0 and x = 1, nothing dispatched yet |
| ColorRange.ColorRange.GetPoints | packages/transfer-function-editor/lib/ColorRange.ts:56 | getPoints is the point list itself, which is kept sorted in place |
| ColorRange.ColorRange.GetColorRange | packages/transfer-function-editor/lib/ColorRange.ts:57 | the colour range has two entries, the lower first |
| ColorRange.ColorRange.SetColorRange | packages/transfer-function-editor/lib/ColorRange.ts:74-83 | after setColorRange the range is the two clamped values in ascending order, and exactly one 'updated' event carries it (the per-point events are suppressed while batched) |
| ColorRange.ColorRange.EndBatch | packages/transfer-function-editor/lib/ColorRange.ts:81-82 | leaving the batch dispatches the final range once |
| ColorRange.ColorRange.AssignSorted | packages/transfer-function-editor/lib/ColorRange.ts:78-80 | assigning one of the sorted points keeps the pair and dispatches nothing while batched |
| ColorRange.ColorRange.PointListener | packages/transfer-function-editor/lib/ColorRange.ts:64-68 | a point's update dispatches the range unless a batch is under way |
| ColorRange.ColorRange.SetPosition | lib/Point.ts:31-35 | `setPosition` on one of the pair: the list ends sorted by the new clamped x, the point has the new clamped y, and the range is dispatched three times (after the x setter, the y setter and the final dispatch), each time with the final range |
| ColorRange.ColorRange.MovePoint | packages/transfer-function-editor/lib/ColorRange.ts:20-23 | dragging one point: the drag's `setPosition` then `setPosition(x, 0)`; the list is the pair re-sorted by the clamped dragged x with the point on y = 0, and the range is dispatched six times, each with the final range |
| ColorRange.SecondPosition | packages/transfer-function-editor/lib/ColorRange.ts:20-23 | after the drag, the point's own x is the clamped dragged x, and setting (that x, 0) gives the drag's sorted list with the point on y = 0 |
| ColorRange.DraggedX | packages/transfer-function-editor/lib/ControlPoint.ts:169-174 | after the drag and the sort, the dragged point holds the x it was given |
| ColorRange.IdKept | packages/transfer-function-editor/lib/ControlPoint.ts:169-174 | moving and re-sorting the pair keeps the moved point in it |
| ComputeRanges.SplitEnd | packages/io/src/analyze/ComputeRanges.worker.js:12-16 | a split ends no earlier than it starts and no later than the end of the values |
| ComputeRanges.SplitsChain | packages/io/src/analyze/ComputeRanges.worker.js:12-16 | the first split starts at 0, the last ends at the end of the values, and each split ends where the next one starts |
| ComputeRanges.SplitsPartition | packages/io/src/analyze/ComputeRanges.worker.js:12-16 | every value index lies in exactly one split |
| ComputeRanges.SplitsOrdered | packages/io/src/analyze/ComputeRanges.worker.js:12-16 | an earlier split ends before a later one starts |
| ComputeRanges.AssignedMembership | packages/io/src/analyze/ComputeRanges.worker.js:18-20 | helper c receives exactly the values of the split whose index is c modulo the number of components |
| ComputeRanges.TotalIsSplitLength | packages/io/src/analyze/ComputeRanges.worker.js:18-20 | over all helpers, every value of the split is handed out exactly once |
| ComputeRanges.TotalEmpty | packages/io/src/analyze/ComputeRanges.worker.js:18-20 | an empty split hands out nothing |
| ComputeRanges.TotalStep | packages/io/src/analyze/ComputeRanges.worker.js:18-20 | one more loop index adds one value to the count of helper (i mod k) |
| ComputeRanges.RangesOf | packages/io/src/analyze/ComputeRanges.worker.js:10-22 | one range per component; with no components and a non-empty split the helper lookup throws |
| ComputeRanges.ComputeRangesOf | packages/io/src/analyze/ComputeRanges.worker.js:4-23 | the loop computes, for each component, the range of exactly the values assigned to it within this worker's split, or the error |
| DataRange.DataRange.constructor | packages/transfer-function-editor/lib/DataRange.ts:2-4 | the range starts as [0, 1] with nothing dispatched |
| DataRange.DataRange.SetRange | packages/transfer-function-editor/lib/DataRange.ts:6-9 | the range is replaced and one 'updated' event carries it |
| DataRange.DataRange.ToDataSpace | packages/transfer-function-editor/lib/DataRange.ts:11-15 | 0 maps to the start and 1 to the end of the range, the default range is the identity, and on a non-empty range the mapping is inverted by normalising |
| DataRange.DataRange.ToDataSpaceMonotone | packages/transfer-function-editor/lib/DataRange.ts:11-15 | on an ascending range the mapping keeps the order of its arguments |
| DimensionUtils.CxyztIndex | packages/io/src/dimensionUtils.ts:3 | each dimension's position in the CXYZT viewer order |
| DimensionUtils.FromEntriesAppend | packages/io/src/dimensionUtils.ts:12 | `new Map(entries)` over fresh unique keys keeps the entries in order |
| DimensionUtils.GetEntry | packages/io/src/dimensionUtils.ts:11 | in a map with unique keys, each entry is what its key reads |
| DimensionUtils.EnsuredDimsGet | packages/io/src/dimensionUtils.ts:5-13 | a dimension already in the map keeps its value, a missing ensured dimension gets the default, any other stays absent; the original keys stay first and in order |
| DimensionUtils.Zip | packages/io/src/dimensionUtils.ts:15-18 | the map's keys are the dimensions in order |
| DimensionUtils.ToDimensionMapGet | packages/io/src/dimensionUtils.ts:15-18 | the i-th dimension maps to the i-th value, or to undefined past the end of the array |
| DimensionUtils.Ordered | packages/io/src/dimensionUtils.ts:22-31 | the result has exactly the requested dimensions in the requested order, each with the value it had |
| DimensionUtils.OrderedErrors | packages/io/src/dimensionUtils.ts:22-31 | orderBy succeeds exactly when every requested dimension has a truthy value, and otherwise throws "Dimension … not found" for the first one that does not |
| DimensionUtils.OrderByKeeps | packages/io/src/dimensionUtils.ts:20-31 | reordering keeps each requested dimension's value and drops the others |
| DimensionUtils.FlattenSnoc | packages/io/src/dimensionUtils.ts:33-39 | the chunks pushed so far concatenate to the values sliced so far |
| DimensionUtils.Chunk | packages/io/src/dimensionUtils.ts:33-39 | the chunks concatenate back to the input, all but the last have chunkSize items, the last is non-empty and no longer |
| DimensionUtils.NonNullable | packages/io/src/dimensionUtils.ts:41-43 | `value != null` is false exactly for null and undefined |
| FpsWatcher.Mean | packages/viewer/src/fps-watcher.ts:48-52 | the average times the number of samples is their sum |
| FpsWatcher.SumAbove | packages/viewer/src/fps-watcher.ts:49 | a sum of samples each above t exceeds count × t |
| FpsWatcher.SumBelow | packages/viewer/src/fps-watcher.ts:49 | a sum of samples each below t is under count × t |
| FpsWatcher.MeanAbove | packages/viewer/src/fps-watcher.ts:48-52 | the average of samples each above t is above t |
| FpsWatcher.MeanBelow | packages/viewer/src/fps-watcher.ts:48-52 | the average of samples each below t is below t |
| FpsWatcher.Judge | packages/viewer/src/fps-watcher.ts:55-59 | the verdict is slow exactly when the average exceeds 1/15 s, and fast exactly when it is below 1/30 s (the two cannot both hold) |
| FpsWatcher.EverySlowFrameSendsSlow | packages/viewer/src/fps-watcher.ts:5-10 | a batch of 30 frames each slower than 1/15 s sends slowFps to the parent |
| FpsWatcher.EveryFastFrameSendsFast | packages/viewer/src/fps-watcher.ts:5-10 | a batch of 30 frames each faster than 1/30 s sends fastFps to the parent |
| FpsWatcher.Watcher.constructor | packages/viewer/src/fps-watcher.ts:12-15 | no samples and average 0 |
| FpsWatcher.Watcher.NewSample | packages/viewer/src/fps-watcher.ts:27-80 | the render time is appended; when that makes 30 samples the average becomes their mean, the verdict's message (if any) is sent and the samples are emptied |
| FpsWatcherMachine.Judge | packages/viewer/src/fps-watcher-machine.ts:50-54 | checkSlow (average below 1/15) wins when both guards hold, so the verdict is slow exactly when the average is below 1/15 and fast otherwise; the fall-through to sample is unreachable |
| FpsWatcherMachine.SlowCheckedFirst | packages/viewer/src/fps-watcher-machine.ts:68-73 | an average of 1/30 satisfies both guards and is judged slow |
| FpsWatcherMachine.HighSamplesJudgedFast | packages/viewer/src/fps-watcher-machine.ts:43-58 | three samples each above 1/15 are judged fast |
| FpsWatcherMachine.LowSamplesJudgedSlow | packages/viewer/src/fps-watcher-machine.ts:43-58 | three samples each below 1/15 are judged slow |
| FpsWatcherMachine.Watcher.constructor | packages/viewer/src/fps-watcher-machine.ts:10-13 | no samples and average 0 |
| FpsWatcherMachine.Watcher.NewSample | packages/viewer/src/fps-watcher-machine.ts:25-64 | the value is appended; the third sample completes a batch: the average becomes the mean, the verdict is returned and the samples are emptied |
| ImageBuilder.AxisIndex | packages/viewer/src/image-builder.ts:19-23 | axes I, J and K index 0, 1 and 2 |
| ImageBuilder.NormalizedSliceBounds | packages/viewer/src/image-builder.ts:207-218 | the normalised bounds are [0,1] on every axis except the slice axis, whose min and max are both the slice position |
| ImageBuilder.SliceBoundsInsideImage | packages/viewer/src/image-builder.ts:207-218 | for a slice position in [0, 1] the bounds lie inside the unit box and have width 0 along the slice axis and 1 along the others |
| ImageBuilder.WriteNormalizedBounds | packages/viewer/src/image-builder.ts:207-218 | the fresh bounds array is written in place to the normalised slice bounds |
| ImageBuilder.AxisSize | packages/viewer/src/image-builder.ts:160-161 | the array-shape size of the axis's dimension, 1 when the dimension is missing |
| ImageBuilder.FindSliceIndex | packages/viewer/src/image-builder.ts:133-172 | a 2D built image gives index 0; otherwise the index is the slice's position in the whole image, less the built image's origin index, rounded and clamped to the built image |
| ImageBuilder.IndexInBuilt | packages/viewer/src/image-builder.ts:162-171 | the slice index is never negative and is below the built size when that is positive, and equals the rounded position whenever that is already in range |
| ImageBuilder.WholeImageEnds | packages/viewer/src/image-builder.ts:160-171 | when the built image is the whole image, slice 0 is index 0 and slice 1 is the last index |
| ImageBuilder.SliceIndexMonotone | packages/viewer/src/image-builder.ts:160-171 | a deeper slice position never gives a smaller slice index |
| ImageBuilder.IndexInBuiltMonotone | packages/viewer/src/image-builder.ts:162-171 | the rounded and clamped index grows with the slice position |
| ImageBuilder.ClampMonotone | packages/viewer/src/image-builder.ts:168-171 | clamping to the built size keeps the order of indices |
| ImageBuilder.ImageBuilderActor.constructor | packages/viewer/src/image-builder.ts:176-224 | the actor starts building, with no built image, and asks its worker once for the image inside the normalised slice bounds at its scale |
| ImageBuilder.ImageBuilderActor.BuiltImageArrived | packages/viewer/src/image-builder.ts:226-235 | while building, a built image is stored and the actor moves to finding the slice index; in other states nothing changes |
| ImageBuilder.ImageBuilderActor.SliceIndexFound | packages/viewer/src/image-builder.ts:237-258 | when finding the slice index, the parent is sent imageBuilt with the stored image and the computed slice index, and the actor is done; otherwise nothing changes |
| ImageBuilder.ImageBuilderActor.Cancel | packages/viewer/src/image-builder.ts:181-185 | cancel goes to done from any state and sends nothing |
| ItkWasmImage.ImageDims | packages/io/src/ItkWasmMultiscaleSpatialImage.ts:48-64 | the dimension list built by pushes and unshifts is the reference list below |
| ItkWasmImage.ImageDimsShape | packages/io/src/ItkWasmMultiscaleSpatialImage.ts:48-64 | the dimensions are distinct, always hold y and x, never t, hold c exactly for multi-component images (last) and z exactly for 3D images (first) |
| ItkWasmImage.Reversed | packages/io/src/ItkWasmMultiscaleSpatialImage.ts:75 | reversing puts element k at position length-1-k |
| ItkWasmImage.ReversedImageDims | packages/io/src/ItkWasmMultiscaleSpatialImage.ts:75 | the reversed dimension list is c (if any), x, y, z (if 3D): the order the coordinate builder assumes |
| ItkWasmImage.CxyztMap | packages/io/src/ItkWasmMultiscaleSpatialImage.ts:76-78 | a five-element array keyed by CXYZT gives each dimension its own element |
| ItkWasmImage.OrderByCxyzt | packages/io/src/ItkWasmMultiscaleSpatialImage.ts:76-78 | ordering the CXYZT map by the image's dimensions keeps each dimension's value when all are truthy |
| ItkWasmImage.ChunkCountIsOne | packages/io/src/ItkWasmMultiscaleSpatialImage.ts:71-76 | the chunk count is 1 along every dimension of the image |
| ItkWasmImage.OrderByCxyztOk | packages/io/src/ItkWasmMultiscaleSpatialImage.ts:68-78 | ordering succeeds exactly when every dimension of the image has a truthy size |
| ItkWasmImage.ArrayShapeOk | packages/io/src/ItkWasmMultiscaleSpatialImage.ts:49-78 | the array shape is built exactly when the image's sizes along x, y (and z in 3D) are present and non-zero, the only entries that can be falsy |
| ItkWasmImage.AllTruthy | packages/io/src/ItkWasmMultiscaleSpatialImage.ts:49-64 | with the sizes present every dimension of the image has a truthy size |
| ItkWasmImage.SomeFalsy | packages/io/src/ItkWasmMultiscaleSpatialImage.ts:49-64 | with a size missing or zero some dimension of the image has a falsy size, so orderBy throws |
| ItkWasmImage.ArrayShapeAt | packages/io/src/ItkWasmMultiscaleSpatialImage.ts:49-78 | the array shape lists the image's dimensions in order, each with its size: components for c, size[0..2] for x, y, z |
| ItkWasmImage.AxisCoords | packages/io/src/ItkWasmMultiscaleSpatialImage.ts:27-30 | one coordinate per voxel along the axis, none past the image's dimensionality |
| ItkWasmImage.SpatialCoordsKeys | packages/io/src/ItkWasmMultiscaleSpatialImage.ts:22-33 | after the spatial loop the coordinate map holds exactly the earlier keys and the spatial dimensions visited |
| ItkWasmImage.SpatialCoordsAt | packages/io/src/ItkWasmMultiscaleSpatialImage.ts:22-33 | the k-th spatial dimension's coordinates are origin + i·spacing of image axis k - start |
| ItkWasmImage.CoordsMeaning | packages/io/src/ItkWasmMultiscaleSpatialImage.ts:11-34 | the coordinate map's keys are exactly the given dimensions; c maps to 0..components-1 and each spatial dimension to its axis's voxel positions |
| ItkWasmImage.SpatialCoordsKeep | packages/io/src/ItkWasmMultiscaleSpatialImage.ts:22-33 | the spatial loop leaves a key it does not visit as it was |
| ItkWasmImage.Coords.constructor | packages/io/src/ItkWasmMultiscaleSpatialImage.ts:11-34 | the coordinate map built in place equals the reference map |
| ItkWasmImage.Coords.Get | packages/io/src/ItkWasmMultiscaleSpatialImage.ts:36-38 | get finds coordinates exactly for a dimension the map has, and returns them |
| ItkWasmImage.FillComponents | packages/io/src/ItkWasmMultiscaleSpatialImage.ts:16-19 | the component coordinate array holds 0, 1, …, components-1 |
| ItkWasmImage.FillAxis | packages/io/src/ItkWasmMultiscaleSpatialImage.ts:24-30 | the loop fills element i with origin + i·spacing |
| ItkWasmImage.ImageToScaleInfo | packages/io/src/ItkWasmMultiscaleSpatialImage.ts:45-82 | the scale info has the image's dimensions, chunk size and array shape equal to the ordered sizes, chunk count 1 everywhere, the coordinates of the reversed dimensions, and the 3D direction reversed into three rows of three; it throws exactly when orderBy throws, with the same message |
| ItkWasmImage.ChunkRows | packages/io/src/ItkWasmMultiscaleSpatialImage.ts:79 | nine direction entries chunked by three make three rows of three |
| ItkWasmImage.FlattenLength | packages/io/src/dimensionUtils.ts:33-39 | chunks of at most three, only the last shorter, hold between 3(n-1)+1 and 3n items |
| ItkWasmImage.FlattenFull | packages/io/src/dimensionUtils.ts:33-39 | n full chunks of three hold 3n items |
| ItkWasmImage.GetChunks | packages/io/src/ItkWasmMultiscaleSpatialImage.ts:93-103 | the single chunk is the image's data buffer; without data it throws "Image data is null" |
| MultiscaleSpatialImage.BytesPerElement | packages/io/src/componentTypeToTypedArray.ts:7-18 | exactly the eight listed integer and float component types have a typed array; its element size is 1, 2, 4 or 8 bytes |
| MultiscaleSpatialImage.Inflate | packages/io/src/MultiscaleSpatialImage.ts:78-86 | the array is changed in place into the inflated bounds and returned |
| MultiscaleSpatialImage.InflatedProperties | packages/io/src/MultiscaleSpatialImage.ts:78-86 | inflating by d widens every axis by 2d, two inflations add up, and a non-negative inflation keeps every contained point |
| MultiscaleSpatialImage.GetIndexBoundsGet | packages/io/src/MultiscaleSpatialImage.ts:640-648 | every dimension of the shape maps to [0, size-1]; no other dimension is present |
| MultiscaleSpatialImage.IndexBoundsRange | packages/io/src/MultiscaleSpatialImage.ts:640-648 | the completed range of a dimension is [0, size-1] when the shape has it and [0, 1] otherwise |
| MultiscaleSpatialImage.EnsuredRange | packages/io/src/MultiscaleSpatialImage.ts:229-233 | completing the bounds with a default keeps every present range and supplies the default for a missing listed dimension |
| MultiscaleSpatialImage.GetIndexExtent | packages/io/src/MultiscaleSpatialImage.ts:650-661 | the x, y, z index ranges completed with [0, 1], inflated by one half |
| MultiscaleSpatialImage.ExtentRange | packages/io/src/MultiscaleSpatialImage.ts:650-658 | each range of the extent before inflation is the completed index range of that axis |
| MultiscaleSpatialImage.IndexExtentLength | packages/io/src/MultiscaleSpatialImage.ts:650-661 | the extent starts at -0.5 and is as long as the axis size, or 2 for a missing axis |
| MultiscaleSpatialImage.ClampIndex | packages/io/src/MultiscaleSpatialImage.ts:249-250 | the clamped value lies in [min, max] whenever min <= max, and never above max |
| MultiscaleSpatialImage.ClampFloorInside | packages/io/src/MultiscaleSpatialImage.ts:249 | the floor of a clamped minimum stays inside a whole-number full range |
| MultiscaleSpatialImage.ClampCeilInside | packages/io/src/MultiscaleSpatialImage.ts:250 | the ceiling of a clamped maximum stays inside a whole-number full range |
| MultiscaleSpatialImage.ClampWhole | packages/io/src/MultiscaleSpatialImage.ts:249-250 | a whole index already in range is kept by clamping with floor and ceiling |
| MultiscaleSpatialImage.ClampRangeInside | packages/io/src/MultiscaleSpatialImage.ts:242-253 | a clamped range lies inside the full range, stays in order, and a whole range already inside is unchanged |
| MultiscaleSpatialImage.Clamped | packages/io/src/MultiscaleSpatialImage.ts:242-257 | the clamped bounds have exactly the keys x, y, z, c, t in that order |
| MultiscaleSpatialImage.ClampedInside | packages/io/src/MultiscaleSpatialImage.ts:242-257 | each clamped x, y, z range lies inside the full range and stays in order; c and t are the full ranges |
| MultiscaleSpatialImage.FullRangeOf | packages/io/src/MultiscaleSpatialImage.ts:229-233 | a full range is the given range of a present dimension and [0, 1] for a missing one |
| MultiscaleSpatialImage.EnsureBoundsCXYZT | packages/io/src/MultiscaleSpatialImage.ts:261-291 | the index box clamped into the full bounds, keyed x, y, z, c, t |
| MultiscaleSpatialImage.IndexBox | packages/io/src/MultiscaleSpatialImage.ts:239 | the world box carried to index space is always well ordered |
| MultiscaleSpatialImage.WorldBoundsToIndexBounds | packages/io/src/MultiscaleSpatialImage.ts:220-258 | without bounds, the full bounds completed for c, x, y, z, t; with bounds, the transformed box clamped into the full bounds |
| MultiscaleSpatialImage.IsContainedSpec | packages/io/src/MultiscaleSpatialImage.ts:307-319 | true iff every benchmark range covers the given range; an error ("Dimension not found") iff a benchmark dimension is missing from the given bounds before any range fails |
| MultiscaleSpatialImage.IsContainedReflexive | packages/io/src/MultiscaleSpatialImage.ts:307-319 | bounds with distinct dimensions contain themselves |
| MultiscaleSpatialImage.IsContainedTransitive | packages/io/src/MultiscaleSpatialImage.ts:307-319 | containment is transitive |
| MultiscaleSpatialImage.FindInSpec | packages/io/src/MultiscaleSpatialImage.ts:326-339 | no image iff no cached bounds contain the request; otherwise the image of the first entry whose bounds contain it |
| MultiscaleSpatialImage.FindInSingle | packages/io/src/MultiscaleSpatialImage.ts:326-339 | a one-entry list finds its image iff its bounds contain the request |
| MultiscaleSpatialImage.ImageCache.constructor | packages/io/src/MultiscaleSpatialImage.ts:384 | the cache starts empty |
| MultiscaleSpatialImage.ImageCache.FindImageInBounds | packages/io/src/MultiscaleSpatialImage.ts:335-338 | a scale with no cache list finds nothing; otherwise the first containing entry of that list |
| MultiscaleSpatialImage.ImageCache.StoreImage | packages/io/src/MultiscaleSpatialImage.ts:341-353 | the scale's list is replaced by the single new entry, other scales are untouched, and a later lookup of the stored bounds finds the image |
| MultiscaleSpatialImage.CRunMembers | packages/io/src/MultiscaleSpatialImage.ts:520-522 | the innermost run holds exactly the indices [h, i, j, k, 0] with 0 <= h < c end |
| MultiscaleSpatialImage.XRunMembers | packages/io/src/MultiscaleSpatialImage.ts:519-523 | the x run holds exactly the indices whose x lies in the x chunk range |
| MultiscaleSpatialImage.YRunMembers | packages/io/src/MultiscaleSpatialImage.ts:518-524 | the y run holds exactly the indices whose y and x lie in their chunk ranges |
| MultiscaleSpatialImage.ZRunMembers | packages/io/src/MultiscaleSpatialImage.ts:517-525 | the full nest holds exactly the indices inside the z, y, x, c chunk box |
| MultiscaleSpatialImage.ChunkSizeWith1 | packages/io/src/MultiscaleSpatialImage.ts:505 | the chunk size of a dimension, or 1 when the scale has none |
| MultiscaleSpatialImage.PositiveSize | packages/io/src/MultiscaleSpatialImage.ts:505 | with positive chunk sizes, every completed chunk size is positive |
| MultiscaleSpatialImage.ChunkIndices | packages/io/src/MultiscaleSpatialImage.ts:485-525 | the loops produce the chunk-index list of the floor/ceiling chunk ranges, in z, y, x, c nesting order |
| MultiscaleSpatialImage.ChunkRegion | packages/io/src/MultiscaleSpatialImage.ts:516-525 | the four nested loops produce the z run of the region |
| MultiscaleSpatialImage.AppendYRun | packages/io/src/MultiscaleSpatialImage.ts:518-524 | the y loop appends exactly the y run |
| MultiscaleSpatialImage.AppendXRun | packages/io/src/MultiscaleSpatialImage.ts:519-523 | the x loop appends exactly the x run |
| MultiscaleSpatialImage.AppendCRun | packages/io/src/MultiscaleSpatialImage.ts:520-522 | the c loop appends exactly the c run |
| MultiscaleSpatialImage.ChunkIndicesMembers | packages/io/src/MultiscaleSpatialImage.ts:507-525 | a chunk index is listed iff it lies in [floor(start/size), ceil(end/size)) on z, y, x and in [0, c chunk count) on c |
| MultiscaleSpatialImage.PresentSizes | packages/io/src/MultiscaleSpatialImage.ts:681-682 | at most the three x, y, z sizes are kept |
| MultiscaleSpatialImage.GetVoxelCount | packages/io/src/MultiscaleSpatialImage.ts:673-699 | without bounds, the product of the present x, y, z sizes; with bounds, the product of the inclusive spans of the clamped x, y, z ranges |
| MultiscaleSpatialImage.VoxelsInBounds | packages/io/src/MultiscaleSpatialImage.ts:689-698 | a well-ordered request counts at least one voxel and at most the full x, y, z box |
| MultiscaleSpatialImage.ProductMonotone | packages/io/src/MultiscaleSpatialImage.ts:683-698 | the product of three sizes of at least one grows with each size |
| MultiscaleSpatialImage.GetBytes | packages/io/src/MultiscaleSpatialImage.ts:701-708 | bytes are element size times components times voxels, and an error for a component type without a typed array |
| MultiscaleSpatialImage.Ensure3dDirection | packages/io/src/MultiscaleSpatialImage.ts:140-159 | a 3x3 direction is copied; a 2x2 one is padded with a zero z row and column and a one on the diagonal |
| MultiscaleSpatialImage.Ensure3dIdentity | packages/io/src/MultiscaleSpatialImage.ts:140-159 | the 2D identity pads to the 3D identity and a nine-element direction is kept |
| MultiscaleSpatialImage.SpatialDims | packages/io/src/MultiscaleSpatialImage.ts:380-383 | the first min(dimension, 3) of x, y, z |
| MultiscaleSpatialImage.MultiscaleImage.constructor | packages/io/src/MultiscaleSpatialImage.ts:366-385 | stores the scale infos, type and name, computes the spatial dims and starts with an empty cache |
| MultiscaleSpatialImage.MultiscaleImage.CoarsestScale | packages/io/src/MultiscaleSpatialImage.ts:387-389 | the coarsest scale is the last index of the scale list |
| MultiscaleSpatialImage.NewImage | packages/io/src/MultiscaleSpatialImage.ts:376-377 | construction fails with "Unsupported component type" iff the component type has no typed array |
| OrGates.AnyOn | packages/transfer-function-editor/lib/utils.ts:5 | on iff some gate is set |
| OrGates.OrGates.constructor | packages/transfer-function-editor/lib/utils.ts:2-3 | no gates and no calls of the gated function yet |
| OrGates.OrGates.Update | packages/transfer-function-editor/lib/utils.ts:4-6 | the gated function receives the OR of all gates; the gates are unchanged |
| OrGates.OrGates.CreateGate | packages/transfer-function-editor/lib/utils.ts:8-17 | the new gate takes the next index and starts off, and the gated function receives the OR of all gates |
| OrGates.OrGates.SetGate | packages/transfer-function-editor/lib/utils.ts:10-13 | only that gate changes, then the gated function receives the OR of all gates |
| OrGates.SetGateOn | packages/transfer-function-editor/lib/utils.ts:5-11 | after setting one gate, the OR is on iff that gate is set on or another gate is on |
| Point.Clamp01 | lib/Point.ts:1 | the result lies in [0, 1], equals the value inside [0, 1] and the nearer end outside |
| Point.Clamp01Idempotent | lib/Point.ts:1 | clamping twice is clamping once |
| Point.Point.constructor | lib/Point.ts:8-11 | the coordinates are stored unclamped and no event is dispatched |
| Point.Point.SetX | lib/Point.ts:17-20 | x becomes the clamped value, y is kept, and one update event carries the new position |
| Point.Point.SetY | lib/Point.ts:26-29 | y becomes the clamped value, x is kept, and one update event carries the new position |
| Point.Point.SetPosition | lib/Point.ts:31-35 | both coordinates clamped, and three update events: after x, after y and the final one |
| Points.ExtendPoints | packages/transfer-function-editor/lib/Points.ts:5-37 | the extended list has at least two points |
| Points.ExtendPointsShape | packages/transfer-function-editor/lib/Points.ts:5-37 | an empty list gives [[0,1],[1,1]], a single point [[0,y],[1,y]]; otherwise the points are kept as a run; clamping wraps them with [head.x,0] and [tail.x,0]; without clamping [0, head.y] is prepended iff head.x > 0 and [1, tail.y] appended iff tail.x < 1, so the list reaches 0 and 1 |
| Points.InsertByX | packages/transfer-function-editor/lib/Points.ts:85-86 | inserting is a permutation of the list plus the new point |
| Points.InsertSorted | packages/transfer-function-editor/lib/Points.ts:85-86 | inserting into a list sorted by x keeps it sorted |
| Points.StableSortByX | packages/transfer-function-editor/lib/Points.ts:82-86 | the sorted list is ordered by x and a permutation of its input |
| Points.PushThenSort | packages/transfer-function-editor/lib/Points.ts:85-86 | pushing then sorting a sorted list is inserting the point by x |
| Points.SortSorted | packages/transfer-function-editor/lib/Points.ts:82 | sorting a list already sorted by x changes nothing |
| Points.InsertUnique | packages/transfer-function-editor/lib/Points.ts:79-88 | a point with a fresh identity keeps identities distinct |
| Points.SortUnique | packages/transfer-function-editor/lib/Points.ts:82 | sorting keeps identities distinct |
| Points.Without | packages/transfer-function-editor/lib/Points.ts:90-92 | the filtered list holds exactly the other points |
| Points.WithoutSorted | packages/transfer-function-editor/lib/Points.ts:91 | filtering keeps the order by x |
| Points.WithoutUnique | packages/transfer-function-editor/lib/Points.ts:91 | filtering keeps identities distinct |
| Points.WithoutKeeps | packages/transfer-function-editor/lib/Points.ts:91 | removing a point that is not in the list changes nothing |
| Points.WithX | lib/Point.ts:17-18 | only the point with that identity gets the new x |
| Points.WithY | lib/Point.ts:26-27 | only the point with that identity gets the new y |
| Points.WithYKeeps | packages/transfer-function-editor/lib/Points.ts:81-84 | changing a y keeps the list sorted, its identities distinct and below the next identity |
| Points.CreateAllShape | packages/transfer-function-editor/lib/Points.ts:58-61 | creating several points adds exactly one point per pair with new identities and keeps the list sorted |
| Points.CreateKeepsValid | packages/transfer-function-editor/lib/Points.ts:79-88 | creating a point keeps the list sorted by x with distinct identities below the next one |
| Points.Points.constructor | packages/transfer-function-editor/lib/Points.ts:42-44 | the list starts empty with no event dispatched |
| Points.Points.CreatePoint | packages/transfer-function-editor/lib/Points.ts:79-88 | the new point is inserted by x under the next identity; no event |
| Points.Points.AddPoint | packages/transfer-function-editor/lib/Points.ts:51-55 | the new point is inserted by x and one 'updated' event carries the new list |
| Points.Points.AddPoints | packages/transfer-function-editor/lib/Points.ts:58-61 | the points are created in order with consecutive identities and no event is dispatched |
| Points.Points.DeletePoint | packages/transfer-function-editor/lib/Points.ts:90-92 | only that point is removed; no event |
| Points.Points.SetPoints | packages/transfer-function-editor/lib/Points.ts:63-66 | every old point is removed and exactly the new ones are created, without an event |
| Points.Points.RemovePoint | packages/transfer-function-editor/lib/Points.ts:68-71 | only that point is removed and one 'updated' event carries the new list |
| Points.Points.PointUpdated | packages/transfer-function-editor/lib/Points.ts:81-84 | a point's own update re-sorts a list that is already sorted, so it is unchanged, and dispatches it once |
| Points.Points.SetPointX | packages/transfer-function-editor/lib/Points.ts:81-84 | the point's clamped new x is applied, the list re-sorted by x, and the result dispatched |
| Points.Points.SetPointY | packages/transfer-function-editor/lib/Points.ts:81-84 | the point's clamped new y is applied, the order is kept, and the result dispatched |
| Points.Points.SetPointPosition | packages/transfer-function-editor/lib/Points.ts:81-84 | x then y are applied with re-sorting, and the list is dispatched three times, last with the final list |
| PiecewiseUtils.Vertex.constructor | packages/transfer-function-editor/lib/PiecewiseUtils.ts:164 | a new `[x, y]` array holds the given coordinates |
| PiecewiseUtils.CoordsAppend | packages/transfer-function-editor/lib/PiecewiseUtils.ts:164 | the coordinates of a concatenation are the concatenated coordinates |
| PiecewiseUtils.Windowed | packages/transfer-function-editor/lib/PiecewiseUtils.ts:107-108 | windowing keeps the length and the interior, moves the first x down and the last x up by 1e-8 |
| PiecewiseUtils.Extension | packages/transfer-function-editor/lib/Points.ts:27-36 | the list of arrays extended has at least two elements |
| PiecewiseUtils.ExtendVertices | packages/transfer-function-editor/lib/Points.ts:5-37 | the extension's new arrays are [0, first y] and [1, last y], placed as the extension of the same list of arrays |
| PiecewiseUtils.ExtensionCoords | packages/transfer-function-editor/lib/Points.ts:5-37 | the arrays extended hold exactly the values extendPoints computes |
| PiecewiseUtils.ExtensionEnds | packages/transfer-function-editor/lib/Points.ts:27-36 | the first array is the new [0, y] one when added, otherwise the caller's first; likewise at the end |
| PiecewiseUtils.ExtensionDistinct | packages/transfer-function-editor/lib/Points.ts:27-36 | extending distinct arrays with two new arrays gives distinct arrays |
| PiecewiseUtils.WindowPointsForSort | packages/transfer-function-editor/lib/PiecewiseUtils.ts:104-110 | the extended points with the first x lowered and the last x raised by 1e-8; the two ends are different arrays; no other array of the caller's changes, and with fewer than two points none does |
| PiecewiseUtils.WindowedCoords | packages/transfer-function-editor/lib/PiecewiseUtils.ts:104-110 | the nudged arrays hold exactly the windowed values |
| PiecewiseUtils.InterceptAsWritten | packages/transfer-function-editor/lib/PiecewiseUtils.ts:154-156 | the interpolated x is a finite number iff the segment is not flat |
| PiecewiseUtils.FlatSegmentGivesNaN | packages/transfer-function-editor/lib/PiecewiseUtils.ts:149-157 | a segment lying on y = 1 passes the crossing test and yields NaN |
| PiecewiseUtils.InterceptBetween | packages/transfer-function-editor/lib/PiecewiseUtils.ts:154-156 | where a segment meets y = 1, the intercept lies between its two x values |
| PiecewiseUtils.Y1InterceptsMembers | packages/transfer-function-editor/lib/PiecewiseUtils.ts:141-162 | x is an intercept iff some consecutive segment meets y = 1 at that x |
| PiecewiseUtils.InterceptsAgree | packages/transfer-function-editor/lib/PiecewiseUtils.ts:141-162 | the finite intercepts the loop as written collects are exactly the corrected intercepts |
| PiecewiseUtils.FindY1Intercepts | packages/transfer-function-editor/lib/PiecewiseUtils.ts:141-162 | the loop collects the intercept of every segment meeting y = 1, in order |
| PiecewiseUtils.ToNode | packages/transfer-function-editor/lib/PiecewiseUtils.ts:170-176 | x is mapped from [0, 1] into the range, y is capped at 1, midpoint 0.5 and sharpness 0 |
| PiecewiseUtils.NodesOf | packages/transfer-function-editor/lib/PiecewiseUtils.ts:171-176 | one node per windowed point, in order |
| PiecewiseUtils.OnLine | packages/transfer-function-editor/lib/PiecewiseUtils.ts:164 | each intercept becomes the point [x, 1] |
| PiecewiseUtils.OnLineVertices | packages/transfer-function-editor/lib/PiecewiseUtils.ts:164 | new distinct arrays [x, 1], one per intercept |
| PiecewiseUtils.WithIntercepts | packages/transfer-function-editor/lib/PiecewiseUtils.ts:163-164 | the caller's arrays followed by a new array [x, 1] per intercept |
| PiecewiseUtils.GetNodes | packages/transfer-function-editor/lib/PiecewiseUtils.ts:140-177 | for distinct arrays, the nodes of the windowed, extended points with their y = 1 intercepts |
| PiecewiseUtils.ArrayEquals | packages/transfer-function-editor/lib/PiecewiseUtils.ts:123-129 | true iff the two arrays have the same length and equal entries |
| PiecewiseUtils.HexDigit | packages/transfer-function-editor/lib/PiecewiseUtils.ts:134 | a digit below 16 is a lower-case hexadecimal character |
| PiecewiseUtils.DigitRoundTrip | packages/transfer-function-editor/lib/PiecewiseUtils.ts:134 | reading back a hexadecimal digit gives the digit |
| PiecewiseUtils.NatToHex | packages/transfer-function-editor/lib/PiecewiseUtils.ts:134 | `toString(16)` of a natural is hexadecimal digits ending with its last digit |
| PiecewiseUtils.NatToHexRoundTrip | packages/transfer-function-editor/lib/PiecewiseUtils.ts:134 | reading back `toString(16)` gives the number |
| PiecewiseUtils.ComponentHex | packages/transfer-function-editor/lib/PiecewiseUtils.ts:133-134 | each component gives exactly two characters |
| PiecewiseUtils.RgbaToHexa | packages/transfer-function-editor/lib/PiecewiseUtils.ts:131-136 | '#' followed by two characters per component |
| PiecewiseUtils.ComponentAt | packages/transfer-function-editor/lib/PiecewiseUtils.ts:131-136 | characters 1+2i and 2+2i are component i's two characters |
| PiecewiseUtils.ComponentHexValue | packages/transfer-function-editor/lib/PiecewiseUtils.ts:133-134 | the two characters are the last two hexadecimal digits of floor(c * 255), which for c in [0, 1] is floor(c * 255) itself |
| PiecewiseUtils.LogOf | packages/transfer-function-editor/lib/PiecewiseUtils.ts:114 | 0 stays 0 and a negative value has no finite logarithm |
| PiecewiseUtils.Logs | packages/transfer-function-editor/lib/PiecewiseUtils.ts:114 | the logarithms, one per bin |
| PiecewiseUtils.Truthy | packages/transfer-function-editor/lib/PiecewiseUtils.ts:115 | exactly the finite non-zero logarithms are kept |
| PiecewiseUtils.SeqMin | packages/transfer-function-editor/lib/PiecewiseUtils.ts:116 | the minimum is a member and below every member |
| PiecewiseUtils.SeqMax | packages/transfer-function-editor/lib/PiecewiseUtils.ts:117 | the maximum is a member and above every member |
| PiecewiseUtils.LogTransform | packages/transfer-function-editor/lib/PiecewiseUtils.ts:112-120 | no histogram gives []; otherwise one value per bin |
| PiecewiseUtils.LogTransformAt | packages/transfer-function-editor/lib/PiecewiseUtils.ts:119 | each bin is its logarithm scaled by the non-zero minimum and maximum |
| PiecewiseUtils.LogTransformZeros | packages/transfer-function-editor/lib/PiecewiseUtils.ts:113-119 | zero bins and bins whose logarithm is 0 stay 0; a negative bin is NaN |
| PiecewiseUtils.LogTransformRange | packages/transfer-function-editor/lib/PiecewiseUtils.ts:116-119 | a non-zero logarithm is scaled into [0, 1] with the minimum at 0 and the maximum at 1, or is NaN when all non-zero logarithms are equal |
| PiecewiseUtils.Nudge | packages/transfer-function-editor/lib/PiecewiseUtils.ts:107-108 | the first array's x is lowered and the last array's x raised by 1e-8, every other value unchanged, and any other position holding one of those arrays sees the same change |
| PyDataManager.NextOneStepForward | packages/viewer/python/itkviewer/data_manager.py:8-15 | a transition is allowed exactly for load from idle, run from loading and shutdown from running, each one step forward; the final state allows none |
| PyDataManager.ReplayNeverBack | packages/viewer/python/itkviewer/data_manager.py:8-15 | a run of transitions never moves the machine backwards and at most one step per transition |
| PyDataManager.DataManagerMachine.constructor | packages/viewer/python/itkviewer/data_manager.py:17-21 | the machine starts idle and holds the given configuration, if any |
| PyDataManager.DataManagerMachine.Fire | packages/viewer/python/itkviewer/data_manager.py:13-15 | an allowed transition moves to its target state; any other is refused in the current state and changes nothing |
| PyDataManager.DataManagerMachine.Send | packages/viewer/python/itkviewer/data_manager.py:13-15 | an event name the machine does not declare is refused and changes nothing |
| PyDataManager.DataManagerMachine.Config | packages/viewer/python/itkviewer/data_manager.py:23-27 | the configuration read back is always empty |
| PyDataManager.DataManagerMachine.LoadConfig | packages/viewer/python/itkviewer/data_manager.py:29-34 | the given configuration is stored; the state is kept |
| PyViewer.ViewerMachine.constructor | packages/viewer/python/itkviewer/viewer.py:22-26 | starts idle with the given or default viewer and a new idle data manager built from it |
| PyViewer.ViewerMachine.SetConfig | packages/viewer/python/itkviewer/viewer.py:33-36 | stores the viewer and replaces the data manager by a new idle one |
| PyViewer.ViewerMachine.GetConfig | packages/viewer/python/itkviewer/viewer.py:28-31 | the viewer is returned with its data manager replaced by the (empty, default) one read from the data manager machine |
| PyViewer.ViewerMachine.Fire | packages/viewer/python/itkviewer/viewer.py:16-42 | an allowed transition moves the viewer; entering loading or running forwards load or run to the data manager, whose own refusal is reported; shutdown has no hook; a refused transition changes nothing |
| PyViewer.ViewerMachine.SetImage | packages/viewer/python/itkviewer/viewer.py:20-46 | refused outside running; while running the viewer stays put and the data manager refuses the undeclared SetImage event |
| PyViewer.Lifecycle | packages/viewer/python/itkviewer/viewer.py:16-42 | load, run and shutdown from a new viewer end with the viewer shutting down and the data manager running |
| ViewerModel.ActionValue | packages/viewer/python/itkviewer/model.py:31-40 | each action's value is its own name |
| ViewerModel.ParseAction | packages/viewer/python/itkviewer/model.py:31-40 | a string is an action iff it is "Ignore", "Warn" or "Error" |
| ViewerModel.ActionRoundTrip | packages/viewer/python/itkviewer/model.py:31-40 | value then parse gives back the action, and parse then value gives back the string |
| ViewerModel.TagsDistinct | packages/viewer/python/itkviewer/model.py:87-184 | two events or two store models have the same type tag iff they are the same kind |
| ViewerModel.DefaultImageData | packages/viewer/python/itkviewer/model.py:109-114 | image data defaults to no JSON and no store |
| ViewerModel.DefaultDataManager | packages/viewer/python/itkviewer/model.py:126-131 | a data manager defaults to no images and no unknown-event action |
| ViewerModel.DefaultViewer | packages/viewer/python/itkviewer/model.py:55-61 | a viewer defaults to the quoted title "ITK Viewer" and no data manager |
| ViewerModel.DefaultViewport | packages/viewer/python/itkviewer/model.py:65-71 | a viewport defaults to 640 by 480 |
| ViewerModel.MakeRenderer | packages/viewer/python/itkviewer/model.py:135-142 | a renderer keeps its viewport and defaults to a 640 by 480 canvas |
| RemoteMachine.Latest | packages/remote-viewport/src/remote-machine.ts:304-309 | a key has a latest value in a list of changes iff some change sets it |
| RemoteMachine.OverlayGet | packages/remote-viewport/src/remote-machine.ts:304-309 | after spreading changes over a state, a key reads its latest change, or its old value when no change sets it |
| RemoteMachine.OverlayUnique | packages/remote-viewport/src/remote-machine.ts:304-309 | spreading changes over a state with one entry per key keeps one entry per key |
| RemoteMachine.LatestUnique | packages/remote-viewport/src/remote-machine.ts:304-309 | in a list with one entry per key, the latest value of a key is its only value |
| RemoteMachine.LatestAppend | packages/remote-viewport/src/remote-machine.ts:310-313 | in two lists appended, a key's latest value comes from the second list when it sets the key, else from the first |
| RemoteMachine.OverlayConcat | packages/remote-viewport/src/remote-machine.ts:310-313 | applying two batches of changes one after the other reads the same as applying their concatenation (also lines 490-496) |
| RemoteMachine.OverlaySame | packages/remote-viewport/src/remote-machine.ts:304-309 | states that read the same still read the same after the same changes |
| RemoteMachine.OverlayEntries | packages/remote-viewport/src/remote-machine.ts:417-422 | replaying a state's entries over nothing reads the same as the state |
| RemoteMachine.PendingGrows | packages/remote-viewport/src/remote-machine.ts:304-313 | if the renderer after the pending commands reads as the state, then so it does with more changes appended to both |
| RemoteMachine.SentBatch | packages/remote-viewport/src/remote-machine.ts:490-496 | delivering the staged batch and then the queue reads the same as delivering them together |
| RemoteMachine.ImageScaleOf | packages/remote-viewport/src/remote-machine.ts:35 | the image scale read from the state is the integer stored under "imageScale" (also lines 139-142) |
| RemoteMachine.GetTargetScale | packages/remote-viewport/src/remote-machine.ts:131-146 | an error ("Image not found", or a missing scale) iff there is no image or no scale; otherwise the scale one coarser on slow frames, one finer on fast ones, clamped to [0, coarsest scale] |
| RemoteMachine.TargetScaleSteps | packages/remote-viewport/src/remote-machine.ts:143-145 | from a valid scale, the target moves by at most one step, coarser when slow and finer when fast |
| RemoteMachine.ScaleUpdate | packages/remote-viewport/src/remote-machine.ts:208-221 | a scale change goes through iff it differs from the current scale and its bytes fit in the memory budget, and it is then the requested scale |
| RemoteMachine.ScaleUpdateSettles | packages/remote-viewport/src/remote-machine.ts:211 | once a scale has been written to the renderer state, requesting it again changes nothing (also lines 279-290) |
| RemoteMachine.Remote.constructor | packages/remote-viewport/src/remote-machine.ts:162-180 | density 30, identity camera pose, 1 x 1 render size, the whole image clipped, no queued or staged commands, disconnected, a 4000 MB budget |
| RemoteMachine.Remote.UpdateRenderer | packages/remote-viewport/src/remote-machine.ts:301-318 | the changes are spread over the renderer state and queued; an online, idle command loop stages the queue and starts sending; the renderer stays consistent with the state once the pending commands are applied (also lines 487-496) |
| RemoteMachine.Remote.CameraPoseUpdated | packages/remote-viewport/src/remote-machine.ts:319-328 | the same as an update of cameraPose with the new pose |
| RemoteMachine.Remote.SetResolution | packages/remote-viewport/src/remote-machine.ts:329-338 | the same as an update of renderSize with the new resolution |
| RemoteMachine.Remote.Connect | packages/remote-viewport/src/remote-machine.ts:390-407 | a disconnected machine starts connecting; in any other state nothing changes |
| RemoteMachine.Remote.Connected | packages/remote-viewport/src/remote-machine.ts:408-458 | on connection the whole renderer state is queued, the command loop starts sending, and the renderer has applied nothing yet |
| RemoteMachine.Remote.CommandsSent | packages/remote-viewport/src/remote-machine.ts:467-496 | the staged batch counts as applied; with more queued the queue is staged and sending goes on, otherwise the loop idles |
| RemoteMachine.Remote.ImageScaleRequested | packages/remote-viewport/src/remote-machine.ts:191-221 | a new scale that fits in memory updates image and imageScale like updateRenderer; otherwise nothing changes (also lines 279-290) |
| RemoteViewport.Channels | packages/remote-viewport/src/remote-viewport.ts:107-112 | the inclusive channel range: hi-lo+1 channels (none when hi < lo), channel i is lo+i, so c is listed iff lo <= c <= hi |
| RemoteViewport.Region | packages/remote-viewport/src/remote-viewport.ts:113 | x, y, z bounds flattened: six values when all three are present, with a single undefined in place of each missing one |
| RemoteViewport.RegionOf | packages/remote-viewport/src/remote-viewport.ts:113 | a present dimension gives its two bounds, a missing one a single undefined |
| RemoteViewport.MakeLoadImageCommand | packages/remote-viewport/src/remote-viewport.ts:101-123 | fails with "No image index clip bounds" iff there are none; otherwise a loadImage whose path and level come from the command when it sets them and from the renderer state otherwise, whose channels span the c range or are [0], and whose region is the flattened x, y, z bounds |
| RemoteViewport.Translate | packages/remote-viewport/src/remote-viewport.ts:138-149 | a camera pose becomes a look-at command, an image or image scale a loadImage command, any other entry is passed on unchanged |
| RemoteViewport.TranslateAll | packages/remote-viewport/src/remote-viewport.ts:137-149 | fails iff translating some entry fails; otherwise the translations, one per entry, in order |
| RemoteViewport.AddPoses | packages/remote-viewport/src/remote-viewport.ts:150-164 | every loadImage is immediately followed by a camera pose; every command is kept, and only the current camera pose is added |
| RemoteViewport.DedupeIsLastOfType | packages/remote-viewport/src/remote-viewport.ts:165-179 | the reduceRight keeps exactly the commands no later command of the same type shadows, in their original order |
| RemoteViewport.DropShadowed | packages/remote-viewport/src/remote-viewport.ts:169-170 | a command whose type occurs again later contributes nothing |
| RemoteViewport.LastOfTypeTypes | packages/remote-viewport/src/remote-viewport.ts:165-179 | deduplication keeps every command type that occurs |
| RemoteViewport.LastOfTypeUnique | packages/remote-viewport/src/remote-viewport.ts:165-179 | after deduplication no two commands share a type |
| RemoteViewport.LastOfTypeMembers | packages/remote-viewport/src/remote-viewport.ts:165-179 | a command is kept iff it occurs at a position after which its type does not occur again |
| RemoteViewport.LastIndex | packages/remote-viewport/src/remote-viewport.ts:165-179 | the last position of a type, or -1 exactly when the type does not occur |
| RemoteViewport.LastOfTypeOrder | packages/remote-viewport/src/remote-viewport.ts:165-179 | the kept commands stand in the order of their types' last positions |
| RemoteViewport.KeptLoadFollowedByPose | packages/remote-viewport/src/remote-viewport.ts:150-179 | if every loadImage is immediately followed by a camera pose, after deduplication every kept loadImage still has a camera pose after it |
| RemoteViewport.SendCommands | packages/remote-viewport/src/remote-viewport.ts:135-181 | the batch is refused iff translating some entry fails |
| RemoteViewport.SentCommands | packages/remote-viewport/src/remote-viewport.ts:135-181 | the batch sent is the last command of each type of the expanded list: same types, one each, in last-position order, and any loadImage is followed by a camera pose |
| View2d.AxisIndex | packages/viewer/typescript/src/view-2d.ts:28-32 | x, y and z index the first three coordinates |
| View2d.Abs | packages/viewer/typescript/src/view-2d.ts:60-62 | the absolute value is non-negative and is the value or its negation |
| View2d.ComputeMinSizeAxis | packages/viewer/typescript/src/view-2d.ts:59-70 | x iff x is strictly the smallest size, y iff y is strictly the smallest, z otherwise |
| View2d.MinSizeAxisPicksLongest | packages/viewer/typescript/src/view-2d.ts:59-70 | for sizes 1, 1 and 5 the computation picks z, the longest axis |
| View2d.MinSizeAxis | packages/viewer/typescript/src/view-2d.ts:59-70 | the picked axis has the least size; on a tie z is preferred, then x |
| View2d.MinSizeAxisAgrees | packages/viewer/typescript/src/view-2d.ts:59-70 | the corrected choice agrees with the computation except when x and y tie below z |
| View2d.SlicePosition | packages/viewer/typescript/src/view-2d.ts:97-113 | the slice position lies between the bounds along the axis, at the low end for 0 and the high end for 1 |
| View2d.CollapseToSlice | packages/viewer/typescript/src/view-2d.ts:97-113 | both bounds along the axis become the slice position; the other four are kept |
| View2d.SliceIndex | packages/viewer/typescript/src/view-2d.ts:119-138 | a 2D image gives index 0; otherwise the index along the slice axis |
| View2d.IndexAlong | packages/viewer/typescript/src/view-2d.ts:124-137 | no index (NaN) iff the axis is empty or the spacing is zero with the slice at the origin; otherwise an index in [0, size-1], the last or the first when a zero spacing makes the quotient an infinity |
| View2d.IndexOfVoxel | packages/viewer/typescript/src/view-2d.ts:124-137 | the world position of voxel j maps back to index j |
| View2d.SendAll | packages/viewer/typescript/src/view-2d.ts:227-232 | one message per spawned child, in order, each carrying the same event (also lines 289-294, 318-324) |
| View2d.NewChildAppended | packages/viewer/typescript/src/view-2d.ts:209-214 | a child keyed by the current count is appended as a new key |
| View2d.NextKeyAbsent | packages/viewer/typescript/src/view-2d.ts:209 | the key for the next child is never in use |
| View2d.View2dActor.constructor | packages/viewer/typescript/src/view-2d.ts:34-42 | slice 0.5, axis z, scale 0, no image, children or camera, idle (also lines 188-190) |
| View2d.View2dActor.CreateChild | packages/viewer/typescript/src/view-2d.ts:196-218 | the child is stored under the current count, gets the camera if any and then the axis; nothing else changes |
| View2d.View2dActor.SetImageOf | packages/viewer/typescript/src/view-2d.ts:219-236 | the image, its coarsest scale and slice 0.5 are stored, every child gets the new image, and default finding starts; a stopped actor ignores it |
| View2d.View2dActor.StartBuilding | packages/viewer/typescript/src/view-2d.ts:302-313 | building starts when there is an image; otherwise the actor stops with "No image available" |
| View2d.View2dActor.SetSlice | packages/viewer/typescript/src/view-2d.ts:237-240 | the slice is stored and building starts, or the actor stops without an image |
| View2d.View2dActor.SetScale | packages/viewer/typescript/src/view-2d.ts:241-244 | the scale is stored and building starts, or the actor stops without an image |
| View2d.View2dActor.SetCameraOf | packages/viewer/typescript/src/view-2d.ts:260-268 | the camera is stored and forwarded to every child |
| View2d.View2dActor.DefaultAxisFound | packages/viewer/typescript/src/view-2d.ts:141-152 | the axis becomes `computeMinSizeAxis` of the coarsest world bounds (an axis of least size unless x and y tie below z), every child is told it, and building starts (also lines 283-299) |
| View2d.View2dActor.SliceImageBuilt | packages/viewer/typescript/src/view-2d.ts:315-327 | every child gets the built image and its slice index |
| TransformBounds.ComputeCornerPoints | packages/io/src/transformBounds.ts:6-19 | the first array becomes the minimum corner and is returned, the second the maximum corner |
| TransformBounds.BoundsOf | packages/io/src/transformBounds.ts:28-40 | six bounds |
| TransformBounds.BoundsOfProperties | packages/io/src/transformBounds.ts:28-40 | the bounds are symmetric in the two points, well ordered, contain both points, and each is a coordinate of one of them |
| TransformBounds.ComputeBoundsFromPoints | packages/io/src/transformBounds.ts:28-40 | the array is filled with the per-axis minimum and maximum of the two points and returned |
| TransformBounds.AsSeq | packages/io/src/transformBounds.ts:49-52 | a point as its three coordinates |
| TransformBounds.TransformBoundsOf | packages/io/src/transformBounds.ts:42-55 | a new array holding the bounds of the two transformed corners: well ordered and containing both |
| ViewerImage.Denormalize | packages/viewer/src/image.ts:18-53 | a finite normalized bound maps to bound * (max - min) + min |
| ViewerImage.Normalize | packages/viewer/src/image.ts:28-42 | finite exactly when the bound is finite and the data range is not flat, and then it maps back onto the bound |
| ViewerImage.NormalizeRoundTrip | packages/viewer/src/image.ts:14-54 | over a non-flat data range, normalizing and denormalizing are inverse |
| ViewerImage.FlatDataRange | packages/viewer/src/image.ts:28-31 | over a flat data range normalizing gives NaN and denormalizing gives the minimum |
| ViewerImage.ColorRangeOf | packages/viewer/src/image.ts:14-22 | both ends of the normalized range denormalized |
| ViewerImage.NormalizedColorRangeOf | packages/viewer/src/image.ts:24-32 | both ends of the color range normalized |
| ViewerImage.ColorRangeRoundTrip | packages/viewer/src/image.ts:14-32 | over a non-flat data range, color and normalized color ranges convert back and forth exactly |
| ViewerImage.OpacityPointsOf | packages/viewer/src/image.ts:46-54 | each point's x denormalized, y kept |
| ViewerImage.NormalizedOpacityPointsOf | packages/viewer/src/image.ts:36-44 | each point's x normalized, y kept |
| ViewerImage.OpacityPointsRoundTrip | packages/viewer/src/image.ts:36-54 | over a non-flat data range, opacity points and normalized points convert back and forth exactly |
| ViewerImage.GrowRanges | packages/viewer/src/image.ts:169-180 | one range per component of the new ranges; each covers the new range and the held one, and each end comes from one of them |
| ViewerImage.GrowRangesIdempotent | packages/viewer/src/image.ts:171-179 | growing again by the same ranges changes nothing |
| ViewerImage.WriteSlot | packages/viewer/src/image.ts:213-246 | writing a component sets that slot and keeps the others, leaving holes before a slot past the end |
| ViewerImage.ColorRangesOf | packages/viewer/src/image.ts:96-102 | one color range per data range, each the denormalized normalized range |
| ViewerImage.NormalizedColorRangesOf | packages/viewer/src/image.ts:103-112 | one normalized range per data range, each the normalized color range |
| ViewerImage.OpacityPointsAll | packages/viewer/src/image.ts:113-122 | one point list per data range, each the denormalized normalized points |
| ViewerImage.NormalizedOpacityPointsAll | packages/viewer/src/image.ts:123-132 | one normalized point list per data range, each the normalized points |
| ViewerImage.KeepOrDefault | packages/viewer/src/image.ts:187-197 | a set component keeps its value, an unset one gets the default |
| ViewerImage.InitColorRanges | packages/viewer/src/image.ts:184-191 | a color range per data range: the one already set, or the default [0.2, 0.8] denormalized |
| ViewerImage.InitOpacityPoints | packages/viewer/src/image.ts:192-202 | a point list per data range: the one already set, or the default points denormalized |
| ViewerImage.ColorMapsWithDefaults | packages/viewer/src/image.ts:133-145 | one color map per component: the one set when non-empty, otherwise "Viridis (matplotlib)" |
| ViewerImage.ColorMapDefaultsIdempotent | packages/viewer/src/image.ts:133-145 | filling in defaults twice is filling them once |
| ViewerImage.SetColorMap | packages/viewer/src/image.ts:256-262 | the component's map is replaced, or appended when the component is past the end |
| ViewerImage.Image.constructor | packages/viewer/src/image.ts:150-158 | all per-component lists start empty |
| ViewerImage.Image.BuiltImage | packages/viewer/src/image.ts:162-207 | data ranges only grow, unset color ranges and opacity points get defaults, the normalized lists are recomputed, and color maps get defaults |
| ViewerImage.Image.SetColorRange | packages/viewer/src/image.ts:209-219 | the component's color range is written and every normalized range recomputed; nothing else changes |
| ViewerImage.Image.SetNormalizedColorRange | packages/viewer/src/image.ts:220-230 | the component's normalized range is written and every color range recomputed; nothing else changes |
| ViewerImage.Image.SetOpacityPoints | packages/viewer/src/image.ts:231-241 | the component's points are written and every normalized point list recomputed |
| ViewerImage.Image.SetNormalizedOpacityPoints | packages/viewer/src/image.ts:242-252 | the component's normalized points are written and every point list recomputed |
| ViewerImage.Image.SetColorMapOf | packages/viewer/src/image.ts:253-265 | only the color maps change |
| ViewerImage.ColorRangeEventRoundTrip | packages/viewer/src/image.ts:209-219 | after a color range event, denormalizing the recomputed normalized range gives back the range sent |
| ViewerImage.NormalizedColorRangeEventRoundTrip | packages/viewer/src/image.ts:220-230 | after a normalized range event, normalizing the recomputed color range gives back the range sent |
| ViewerMachine.NextId | packages/viewer/src/viewer-machine.ts:79 | the next id is a decimal numeral one greater than the last |
| ViewerMachine.IdAfter | packages/viewer/src/viewer-machine.ts:55-79 | after k viewports the last id is a decimal numeral |
| ViewerMachine.IdAfterIsCount | packages/viewer/src/viewer-machine.ts:55-79 | after k viewports the last id is the numeral of k |
| ViewerMachine.IdsDistinct | packages/viewer/src/viewer-machine.ts:79-89 | different creation counts give different ids, so spawned viewports never share a key |
| ViewerMachine.Broadcast | packages/viewer/src/viewer-machine.ts:111-118 | one setImage message per viewport, in order, all carrying the image |
| ViewerMachine.Viewer.constructor | packages/viewer/src/viewer-machine.ts:54-58 | last id "0", no viewports, no images, nothing sent |
| ViewerMachine.Viewer.AddViewport | packages/viewer/src/viewer-machine.ts:62-75 | the viewport is stored under its name, replacing any viewport of that name |
| ViewerMachine.Viewer.CreateViewport | packages/viewer/src/viewer-machine.ts:76-94 | the id is incremented first and the spawned viewport stored under the new id |
| ViewerMachine.Viewer.SendImageToViewports | packages/viewer/src/viewer-machine.ts:109-120 | every viewport is sent the image; the state is unchanged |
| ViewerMachine.Viewer.SetImage | packages/viewer/src/viewer-machine.ts:95-108 | the image is stored under its name (default "image") and the last stored image, by key order, is sent to every viewport |
| ViewerMachine.NewNameBroadcastsImage | packages/viewer/src/viewer-machine.ts:98-106 | under a new name, the image sent is the one just set |
| ViewerMachine.ResetNameBroadcastsOtherImage | packages/viewer/src/viewer-machine.ts:98-106 | re-setting the first of two names stores the new image but sends the other one |
| ViewerMachine.Viewer.SetImageCorrected | packages/viewer/src/viewer-machine.ts:95-108 | the image is stored under its name and the image just set is sent to every viewport |
| ViewerMachine.CorrectedStoresAndSends | packages/viewer/src/viewer-machine.ts:95-108 | after the corrected update the name reads the new image and every viewport is sent it |
| WheelZoom.ScaleFactor | packages/transfer-function-editor/lib/WheelZoom.ts:3-7 | 1.1 for a downward wheel, 1/1.1 otherwise |
| WheelZoom.Zoom | packages/transfer-function-editor/lib/WheelZoom.ts:13-25 | the event is left alone iff neither end moves; otherwise the new view box lies inside [0, 1] |
| WheelZoom.NewLeft | packages/transfer-function-editor/lib/WheelZoom.ts:13-16 | the new left end is never below 0 |
| WheelZoom.NewRight | packages/transfer-function-editor/lib/WheelZoom.ts:17 | the new right end is never above 1 |
| WheelZoom.ZoomWellOrdered | packages/transfer-function-editor/lib/WheelZoom.ts:13-25 | a view box inside [0, 1] with the pointer at most 1 zooms to an ordered view box inside [0, 1] |
| WheelZoom.ZoomAboutPointer | packages/transfer-function-editor/lib/WheelZoom.ts:13-17 | when neither end is clamped, the width scales by the factor and the pointer keeps its relative place |
| ZarrMultiscale.TrailingNameLength | packages/io/src/ZarrMultiscaleSpatialImage.ts:24 | the length of the longest run of word characters or dashes ending the string |
| ZarrMultiscale.WithoutTrailingSlash | packages/io/src/ZarrMultiscaleSpatialImage.ts:24 | the url, or the url without its one trailing slash |
| ZarrMultiscale.TrailingName | packages/io/src/ZarrMultiscaleSpatialImage.ts:24 | a name after a non-word character is exactly the trailing name run |
| ZarrMultiscale.EndAfterName | packages/io/src/ZarrMultiscaleSpatialImage.ts:24 | a url ending in zarr/, a name and an optional slash has the shape the pattern accepts |
| ZarrMultiscale.MatchBeforeName | packages/io/src/ZarrMultiscaleSpatialImage.ts:24 | such a url is matched at the position of the "zarr" |
| ZarrMultiscale.MatchDecidedByEnd | packages/io/src/ZarrMultiscaleSpatialImage.ts:24 | any match of the pattern means the url has one of the accepted endings |
| ZarrMultiscale.ByEndFindsMatch | packages/io/src/ZarrMultiscaleSpatialImage.ts:24 | every url with an accepted ending is matched by the pattern |
| ZarrMultiscale.IsZarrByEnd | packages/io/src/ZarrMultiscaleSpatialImage.ts:24 | the pattern matches iff the url ends with "zarr", or with "zarr/" and a name, optionally followed by a slash |
| ZarrMultiscale.NestedImageIsZarr | packages/io/src/ZarrMultiscaleSpatialImage.ts:23-24 | a store ending in zarr with a nested image name is recognised, with or without a trailing slash |
| ZarrMultiscale.IsZarrExamples | packages/io/src/ZarrMultiscaleSpatialImage.ts:24 | a plain .zarr url and a nested image with a slash are recognised |
| ZarrMultiscale.StoreWithSlashNotZarr | packages/io/src/ZarrMultiscaleSpatialImage.ts:24 | "a.zarr/" is not recognised: a trailing slash needs a nested name |
| ZarrMultiscale.TwoLevelsNotZarr | packages/io/src/ZarrMultiscaleSpatialImage.ts:24 | only one nested level is recognised |
| ZarrMultiscale.ExtensionNotZarr | packages/io/src/ZarrMultiscaleSpatialImage.ts:24 | "zarr" must end the url or be followed by a slash |
| ZarrMultiscale.NMul | packages/io/src/ZarrMultiscaleSpatialImage.ts:44-45 | a product is a finite number iff both factors are |
| ZarrMultiscale.NAdd | packages/io/src/ZarrMultiscaleSpatialImage.ts:52 | a sum is a finite number iff both terms are |
| ZarrMultiscale.Identity | packages/io/src/ZarrMultiscaleSpatialImage.ts:59 | the composition starts from scale 1 and translation 0 on every axis |
| ZarrMultiscale.Step | packages/io/src/ZarrMultiscaleSpatialImage.ts:40-55 | a step keeps the number of axes |
| ZarrMultiscale.StepMeaning | packages/io/src/ZarrMultiscaleSpatialImage.ts:40-55 | applying the composition after a step is applying the step after the composition: a scale multiplies both scale and translation, a translation adds to the translation only |
| ZarrMultiscale.ComposeFrom | packages/io/src/ZarrMultiscaleSpatialImage.ts:39-60 | the fold keeps the number of scale and translation entries of its start value |
| ZarrMultiscale.ComposeFromMeaning | packages/io/src/ZarrMultiscaleSpatialImage.ts:39-60 | the folded composition applies the transforms one after the other, in order |
| ZarrMultiscale.ComposeTransforms | packages/io/src/ZarrMultiscaleSpatialImage.ts:35-60 | one scale and one translation per axis; no transforms gives the identity |
| ZarrMultiscale.ComposeMeaning | packages/io/src/ZarrMultiscaleSpatialImage.ts:35-60 | applying the composition of a list is applying its transforms in order |
| ZarrMultiscale.ComposeAppend | packages/io/src/ZarrMultiscaleSpatialImage.ts:39-60 | composing a concatenation is composing the second list after the first |
| ZarrMultiscale.ComputeTransform | packages/io/src/ZarrMultiscaleSpatialImage.ts:71-88 | one scale and one translation per axis |
| ZarrMultiscale.ComputeTransformMeaning | packages/io/src/ZarrMultiscaleSpatialImage.ts:71-88 | the computed transform applies the dataset transforms first, then the image's |
| ZarrMultiscale.ScaleTo | packages/io/src/ZarrMultiscaleSpatialImage.ts:110 | one scale per axis of the target shape |
| ZarrMultiscale.EnsureScaleTransforms | packages/io/src/ZarrMultiscaleSpatialImage.ts:91-121 | datasets are returned unchanged if any has transforms; with no dataset it fails; otherwise each dataset gets the single scale finest shape / own shape |
| ZarrMultiscale.EnsuredScalesMatchFinest | packages/io/src/ZarrMultiscaleSpatialImage.ts:106-120 | each ensured scale maps a dataset's size onto the finest size, and the finest dataset gets scale 1 |
| ZarrMultiscale.GetAxisNames | packages/io/src/ZarrMultiscaleSpatialImage.ts:181-188 | the axis names in order, or t, c, z, y, x without axes |
| ZarrMultiscale.IndexOf | packages/io/src/ZarrMultiscaleSpatialImage.ts:145 | the first position of the dimension, or -1 iff it is absent |
| ZarrMultiscale.CoordsEvenlySpaced | packages/io/src/ZarrMultiscaleSpatialImage.ts:145-151 | coordinate 0 is the origin and consecutive coordinates differ by the spacing |
| ZarrMultiscale.Coords.constructor | packages/io/src/ZarrMultiscaleSpatialImage.ts:124-140 | no coordinates made yet; the axes, shape and computed transform are stored |
| ZarrMultiscale.Coords.Has | packages/io/src/ZarrMultiscaleSpatialImage.ts:156-158 | a dimension is present iff it is one of the axes |
| ZarrMultiscale.Coords.Get | packages/io/src/ZarrMultiscaleSpatialImage.ts:142-155 | the coordinates i * spacing + origin along the dimension, made on the first request and cached; later requests change nothing |
| ZarrMultiscale.CeilDiv | packages/io/src/ZarrMultiscaleSpatialImage.ts:232 | the chunk count is a finite number iff both sizes are and the chunk size is not 0 |
| ZarrMultiscale.SizeOf | packages/io/src/ZarrMultiscaleSpatialImage.ts:232 | a size is known iff the dimension is present with a value |
| ZarrMultiscale.CreateScaledImageInfo | packages/io/src/ZarrMultiscaleSpatialImage.ts:190-237 | dims from the array dimensions or else the axis names; shape and chunk size keyed by them; chunk counts computed from both; the image's name; ranges and direction from the scale's attributes, else from the image |
| ZarrMultiscale.ChunkCountAt | packages/io/src/ZarrMultiscaleSpatialImage.ts:230-233 | each dimension's chunk count is ceil(shape / chunk) |
| ZarrMultiscale.InfoKeys | packages/io/src/ZarrMultiscaleSpatialImage.ts:213-233 | shape, chunk size and chunk count share the dims as keys, in order |
| ZarrMultiscale.ChunkCountCovers | packages/io/src/ZarrMultiscaleSpatialImage.ts:230-233 | the chunk count is the least number of chunks covering the shape |
| ZarrMultiscale.CeilCovers | packages/io/src/ZarrMultiscaleSpatialImage.ts:232 | ceil(a / b) chunks of size b cover a and one fewer do not |
| ZarrMultiscale.SpatialDimension | packages/io/src/ZarrMultiscaleSpatialImage.ts:285-287 | the count of x, y, z sizes above 1, at most 3 |
| ZarrMultiscale.Components | packages/io/src/ZarrMultiscaleSpatialImage.ts:281 | the c size, or 1 without c |
| ZarrMultiscale.SingleSliceIsTwoDimensional | packages/io/src/ZarrMultiscaleSpatialImage.ts:281-287 | an image with a single z slice counts as two-dimensional, with the c size as its components |
| ZarrMultiscale.Concurrency | packages/io/src/ZarrMultiscaleSpatialImage.ts:336-339 | the minimum of the hardware concurrency and the given maximum, which defaults to the constant 1000 of line 26 |
| ZarrMultiscale.PiecesJoined | packages/io/src/ZarrMultiscaleSpatialImage.ts:354-361 | the pieces built by the loop are the joined indices plus one trailing separator |
| ZarrMultiscale.ChunkKeyJoins | packages/io/src/ZarrMultiscaleSpatialImage.ts:353-362 | a chunk path is base + '/' + the indices in dims order joined by the separator, or just the base without dims |
| ZarrMultiscale.PiecesSnoc | packages/io/src/ZarrMultiscaleSpatialImage.ts:353-361 | one more loop round appends the next dimension's index and a separator |
| ZarrMultiscale.BuildChunkKey | packages/io/src/ZarrMultiscaleSpatialImage.ts:354-361 | the loop builds the chunk key of the index |
| ZarrMultiscale.ChunkPaths | packages/io/src/ZarrMultiscaleSpatialImage.ts:343-364 | one chunk path per requested index, in order, with separator '.' by default |
| ZarrStoreParser.ChunkKeyNotMetadata | packages/io/src/ZarrStoreParser.ts:5-8 | a chunk key ending in a digit is never a metadata file |
| ZarrStoreParser.IsMetadataExamples | packages/io/src/ZarrStoreParser.ts:5-8 | .zattrs, .zarray and .zgroup files are metadata; a chunk inside .zarray or a name without the dot is not |
| ZarrStoreParser.Parser.GetItem | packages/io/src/ZarrStoreParser.ts:22-25 | a failed fetch is passed on; a metadata item is parsed as JSON, failing iff parsing fails; anything else is returned raw |
| ZarrStoreParser.ChunksPassThrough | packages/io/src/ZarrStoreParser.ts:22-25 | a chunk's bytes are returned unparsed |
| RemoteZarr.ZarrStore.constructor | packages/remote-image/itk_viewer_remote_image/remote_zarr.py:41 | the store holds exactly the given entries |
| RemoteZarr.EncodedStore.constructor | packages/remote-image/itk_viewer_remote_image/remote_zarr.py:19-35 | the encoding wraps the store and is marked as a remote interface of type zarr-store |
| RemoteZarr.EncodedStore.GetItem | packages/remote-image/itk_viewer_remote_image/remote_zarr.py:20-21 | an item is found iff its key is in the store, and it is the stored value |
| RemoteZarr.EncodedStore.SetItem | packages/remote-image/itk_viewer_remote_image/remote_zarr.py:23-24 | the store maps the key to the value afterwards; every other key reads as before |
| RemoteZarr.EncodedStore.ContainsItem | packages/remote-image/itk_viewer_remote_image/remote_zarr.py:26-27 | a key is contained iff reading it succeeds |
| RemoteZarr.RemoteZarr.constructor | packages/remote-image/itk_viewer_remote_image/remote_zarr.py:46-47 | nothing printed yet |
| RemoteZarr.RemoteZarr.GetStore | packages/remote-image/itk_viewer_remote_image/remote_zarr.py:49-68 | the request is logged; a local path that does not exist fails with "File not found" and logs it; an NGFF Zarr path opens a directory store; any other input is converted into a store with '/' as dimension separator |

## Left out

- Rendering, canvases and the DOM are not modelled: the agave device, the remote video stream, `drawChart` and `updateColorCanvas` have no logic the model depends on.
- The Hypha and WebRTC connections, service registration and codec registration are not modelled, because they are network I/O. The remote renderer's `connect` and `render` actors are left out for the same reason.
- A failed `commandSender` call in remote-machine.ts is treated as delivered. Its error handler only logs before returning to idle.
- `setClipBounds` and the normalized clip bounds in remote-machine.ts are not modelled, because they depend on the image's world-to-index matrix.
- The `imageProcessor` state that updates the computed values in remote-machine.ts is not modelled, because it depends on the same matrix.
- Matrix algebra is not modelled:
  - `mat4.lookAt`, `invert` and `toMat4` stay symbolic;
  - `worldToIndex` is a function parameter;
  - only `vec3.transformMat4`'s handling of the homogeneous coordinate is written out.
- MultiscaleSpatialImage.WorldBoundsToIndexBounds: the index-space box is computed from an abstract world-to-index function, not from the image's direction, spacing and origin.
- `extentToBounds`, `getWorldBounds`, `scaleIndexToWorld`, `scaleOrigin`, `scaleSpacing`, `buildImage`, `buildAndCacheImage`, `getImage` and `getImageInImageSpace` in MultiscaleSpatialImage.ts are not modelled. Beyond the modelled index arithmetic, they do pixel assembly and matrix work.
- `findAxesLongNames`, `extractScaleSpacing` and the chunk fetching in ZarrMultiscaleSpatialImage.ts are not modelled, because they read the store over the network.
- The Blosc decompression is not modelled.
- The `PQueue` concurrency limit is modelled only as the `Concurrency` value, not as scheduling.
- Floating point is not modelled:
  - numbers are exact reals, so Float32 rounding and rounding in sums and products are not modelled;
  - NaN and Infinity appear only where the source can produce them from the modelled inputs (`Num`);
  - NaN data samples in the range computation are not modelled.
- ViewerMachine.Viewer.SetImage: JavaScript lists an object's integer-like keys (such as "0" or "7") first, in numeric order, and its other keys after them in insertion order. Ordered records keep plain insertion order. Image names are arbitrary strings, so the orders can differ: with images {a: 1}, `setImage(2)` under the name "0" sends 1 in the source and 2 in the model. The viewport record mixes the integer-like ids of spawned viewports with the names given to `addViewport`, so the order of the broadcast can differ too.
- ViewerMachine.Viewer.AddViewport and ViewerMachine.Viewer.CreateViewport keep the viewports in insertion order, not in JavaScript key order (see the line above).
- The 2D view's children are keyed "0", "1", ... in spawning order (View2d.CountKeyed). For such keys insertion order and JavaScript key order agree, so View2d.SendAll is exact. The renderer-state keys of the remote viewport are not integer-like.
- Object identity is modelled where the source relies on it:
  - `Point` objects and the arrays `windowPointsForSort` mutates are heap objects;
  - elsewhere values are copied. For example, `Points.points` returns a copy, as a Dafny sequence always is, and the camera's `copyPose` aliasing is not tracked.
- The xstate runtime is not modelled: actor spawning, restarts and delayed events become method calls and recorded messages.
- The camera's `reset2d`, `reset3d` and `resetCameraPose` actions are not modelled, because they are matrix computations.
- The 2D view's `setViewport` and `setResolution` forwarding is not modelled, because it only passes values through to children.
- View2d.SliceIndex: where the source's index is NaN (an empty axis, or a zero spacing with the slice at the origin) the model gives `None`; a zero spacing elsewhere gives an infinity, clamped as the source clamps it.
- The fps watchers are modelled as written:
  - remote-machine.ts sends them `renderTime` samples, while fps-watcher-machine.ts reads `fps`;
  - their slow and fast states send nothing to the parent.
  The model keeps each machine's own field names and does not join the two.
- The `console.log` debugging output and the `DEBUG` flag are left out.
- `createRangeHelper` is not part of this model. The colour-range helpers are modelled as logs of the values they receive.
- The details of the Python `statemachine` library are not modelled. Only its transition table is kept, with this callback order: the state is set before `on_enter_*` runs.
- The pydantic validation of extra fields is not modelled, because the Dafny datatypes have fixed fields.
- DimensionUtils.Chunk requires a positive chunk size or an empty list. The source's loop never ends otherwise.
- MultiscaleSpatialImage.ChunkIndices requires positive chunk sizes. They come from the array metadata. With a zero size the source divides by zero and its loop bounds become infinite or NaN.
- ImageBuilder.FindSliceIndex and View2d.SliceIndex require the image's size, spacing and origin to have an entry for the slice axis. The source would compute with `undefined` otherwise.
- ColorRange.ColorRange.MovePoint requires one of the range's own two points, the only points its listeners see.
- ColorRange.ColorRange.MovePoint: the pointer-to-normalized conversion (`domToNormalized`) is DOM work; the model takes its result plus the grab offset as `dragX`, `dragY`.
- Points.Points.SetPointX, Points.Points.SetPointY and Points.Points.SetPointPosition require a point this list created. Only such points have the list's listener.
- The remote-zarr conversion of non-Zarr inputs (`cli_input_to_ngff_image`, `to_multiscales`, `to_ngff_zarr`) is modelled only as an opaque converted store with `/` as dimension separator. The source notes that this path does not work yet.
- PiecewiseUtils.FindY1Intercepts: models the corrected intercept search (see "## Findings"). A segment lying on y = 1 yields no intercept here; the source yields NaN for it. Reals have no NaN.
- PiecewiseUtils.WithIntercepts: for a segment lying on y = 1 the source appends a `[NaN, 1]` array; the model appends none.
- PiecewiseUtils.GetNodes: for the points [[0, 1], [1, 1]] the source returns three nodes, the last with x NaN, and the windowing nudge lands on that NaN array; the model returns the two nodes of the corrected intercepts.
- BoundingBox.LengthSign: on the initial bounds the source's length, -MAX_VALUE - MAX_VALUE, overflows to -Infinity; exact reals give -2·MAX_VALUE, so the lemma promises only a negative length. Lengths of boxes whose coordinates differ by more than MAX_VALUE overflow the same way and are not modelled.
- ZarrMultiscale.CreateScaledImageInfo: the `coords` object (ZarrMultiscale.Coords), the `axesNames` read from the store and the `pixelArrayMetadata` passed through are not fields of the scale information. Whether the scale's `.zattrs` is fetched (only when the image has a version) is the caller's choice of `scaleZattrs`.
- DimensionUtils.EnsuredDims: the model's map values are never `null` or `undefined`. The source's `??` would also replace a present `null` or `undefined` value with the default.

## Findings

| source | as written | input that shows it | evidently intended | confidence | as-written member | corrected member |
|---|---|---|---|---|---|---|
| packages/transfer-function-editor/lib/PiecewiseUtils.ts:149-157 | `findY1Intercepts` interpolates every segment whose ends lie on both sides of y = 1, including a flat segment on y = 1, where it divides 0 by 0 | points [[0, 1], [1, 1]] give the intercept list [NaN] | only segments that meet y = 1 at a single point yield an intercept, so no NaN node is added | not executed | PiecewiseUtils.FlatSegmentGivesNaN | PiecewiseUtils.Y1InterceptsMembers |
| packages/viewer/src/viewer-machine.ts:95-108 | `setImage` stores the image under its name, then broadcasts the last value of the image record | images {a: 1, b: 2}, then setImage(3) under name a: the record is {a: 3, b: 2} and the viewports receive 2 | the viewports receive the image just set | not executed | ViewerMachine.ResetNameBroadcastsOtherImage | ViewerMachine.CorrectedStoresAndSends |
| packages/viewer/typescript/src/view-2d.ts:59-70 | `computeMinSizeAxis` picks x or y only when it is strictly smaller than both others, and z otherwise | bounds [0, 1, 0, 1, 0, 5]: x and y tie at size 1, and z, of size 5, is picked | an axis of least size is picked | not executed | View2d.MinSizeAxisPicksLongest | View2d.MinSizeAxis |

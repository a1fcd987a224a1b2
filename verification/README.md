# web-splat frame loop and camera transitions, in Dafny

This project models the orchestration core of the web-splat point-cloud viewer
(`src/lib.rs`): the `WindowContext` state machine that owns the active camera, an
optional animated transition between two cameras, the surface size and the DPI
scale factor, and the event-loop closure of `open_window` that routes window,
keyboard, mouse and redraw events to it and triages render errors.

The central side effect is `pc.sort`: the point cloud's view-dependent draw order is
recomputed only at "settle" points. These are attaching the point cloud, a
zero-duration camera change, the end of a transition, and a release of `G`. The
model records every sort in a log, so it can prove exactly when one happens.

Structure:

- `collaborators.dfy` (`Collaborators`): sizes, keys, the navigation controller's
  input log, scenes, and cameras. A camera is a term that records the operation that
  produced it (`Default`, `SceneView`, `Reprojected`, `Interpolated`, `Navigated`).
  This keeps `lerp`, `smoothstep`, the projection's `resize` and the controller's
  `update_camera` uninterpreted.
- `session.dfy` (`Session`): the window context as a value (`Context`) and its
  invariant `Valid`. Every operation of `WindowContext` is a function from the old
  state to the new one. Its contract gives every field of the new state: what changes
  and that everything else stays as it was. The one exception is the controller,
  which `update` leaves unchanged because the model leaves out what
  `update_camera` does to it.
- `frames.dfy` (`FrameRuns`): runs of consecutive `update` calls. A transition with
  `L` nanoseconds left ends exactly when the frames add up to more than `L`, and then
  it sorts once.
- `window_context.dfy` (`Window`): `WindowContext` as a class whose methods update its
  fields in place. Each method is proved to produce the state the `Session` function
  computes. The sort log and the surface-configuration log are ghost fields.
- `event_loop.dfy` (`EventLoop`): the closure as a function of the loop state, one
  event and a `World` value. `World` carries what the closure reads from outside:
  the clock, the random number, the render result and the window size.
- `viewer.dfy` (`Viewer`): `FrameLoop`, which owns the window context, `last` and the
  exit flag. Its constructor is `open_window` up to the loop. Its `Handle` method is
  one call of the closure, proved to follow `EventLoop.Handle`.

Durations are whole nanoseconds. `Duration::from_millis(200)` is `200 * 1_000_000`.
`checked_sub` giving `None` is `dt > time_left`. When `dt == time_left`, the
transition therefore stays pending with zero time left, and only a later frame with a
non-zero `dt` ends it. `FrameRuns.FourQuarterFrames` proves this for four 50 ms
frames on a 200 ms transition. A reading in which a transition ends as soon as its
time left reaches zero would end it on the fourth frame. The code ends it only when
`dt` exceeds the time left, and the model follows the code.

Panics are modelled as `EventLoop.Step.Panic`. `R` in a scene with no camera computes
`rnd_idx % 0`, which panics in Rust before any state changes.

## Model

| member | source | states |
|---|---|---|
| `Session.Progress` | src/lib.rs:161-162 | the blend argument `1 - left/total` lies in [0, 1]; it is 0 exactly when no time has passed and 1 exactly when no time is left |
| `Session.ProgressGrowsAsTimeRunsOut` | src/lib.rs:161-162 | as the time left shrinks, the blend argument never decreases |
| `Session.Initial` | src/lib.rs:92-127 | a new context has the window size as config size, the surface configured once with it, the default camera for that size, the window's scale factor, a fresh controller, no transition, no point cloud, no scene, no sort, and satisfies the invariant |
| `Session.SetPointCloud` | src/lib.rs:130-134 | attaching a point cloud sorts it exactly once, with the active camera; camera, transition, config size, surface configurations, scale factor, controller and scene are unchanged |
| `Session.SetScene` | src/lib.rs:226-228 | the scene is replaced and nothing else changes: camera, transition, sort log, point cloud, config size, surface configurations, scale factor and controller are as before |
| `Session.Resize` | src/lib.rs:136-151 | a size with both dimensions positive becomes the config size, is appended to the surface configurations and resizes the camera's projection; a size with a zero dimension changes none of these; the scale factor changes only to a given positive value; the transition, the sort log and the rest are unchanged; the invariant is kept |
| `Session.Update` | src/lib.rs:153-180 | with `dt <= time_left`, the transition stays pending (even at zero) with `time_left - dt <= total` left, the same total and endpoints, the camera is the blend at the new progress, and nothing is sorted; with `dt > time_left`, the camera is the target resized to the config size, the point cloud is sorted exactly once with it if attached, and the transition is gone; with nothing pending, only the controller moves the camera, nothing is sorted and nothing becomes pending; the surface is unchanged and the invariant is kept; the controller is unchanged only because the effect of `update_camera` on the controller is left out |
| `Session.UpdateCamera` | src/lib.rs:238-246 | the requested camera, resized to the config size, becomes active; the point cloud is sorted exactly once with it if attached; a pending transition is untouched |
| `Session.SetCamera` | src/lib.rs:230-236 | with zero duration, the camera is replaced at once (resized), sorted once if a point cloud is attached, and the pending transition is untouched; with duration `d > 0`, the pending transition becomes `((d, d), (active camera, requested))`, overwriting any earlier one, without moving the camera or sorting |
| `Session.ZeroSizeResizeChangesNothing` | src/lib.rs:137-145 | a resize with a zero dimension and no scale factor leaves the whole context as it was |
| `Session.LastTransitionRequestWins` | src/lib.rs:233-235 | of two transition requests, the later one is pending, and it starts from the active camera |
| `Session.ImmediateChangeYieldsToPendingTransition` | src/lib.rs:230-246 | a zero-duration camera change made during a transition does not cancel it: the next frame that does not end the transition shows the blend again |
| `FrameRuns.RunUpdates` | src/lib.rs:348-352 | any number of frames keep the invariant and the surface, and only append to the sort log; they keep the controller only because the effect of `update_camera` on the controller is left out |
| `FrameRuns.IdleRun` | src/lib.rs:176-178 | with no transition pending, every frame applies the controller to the previous camera, nothing is ever sorted and nothing becomes pending; every frame sees the controller state of the first, because the effect of `update_camera` on the controller is left out |
| `FrameRuns.PendingRun` | src/lib.rs:154-164 | while the frames total no more than the time left, the transition stays pending, its time left drops by exactly that total, nothing is sorted, and the camera is the blend at the reached progress |
| `FrameRuns.CompletingRun` | src/lib.rs:165-174 | once the frames total more than the time left, the transition is gone and the run sorted exactly once, with the target resized to the config size, if a point cloud is attached |
| `FrameRuns.TransitionEndsIffTimeExceeded` | src/lib.rs:153-178 | a transition with `L` left ends within a run if and only if the frames total more than `L`; the run sorts once in that case (with a point cloud) and never otherwise |
| `FrameRuns.FourQuarterFrames` | src/lib.rs:155-174 | from any state, a 200 ms transition fed four 50 ms frames is still pending with zero time left, the camera is the blend at progress 1, and nothing was sorted; one more frame with `dt > 0` ends it with the resized target and one sort |
| `Window.WindowContext.constructor` | src/lib.rs:48-128 | the new object is the initial context for the window size and scale factor |
| `Window.WindowContext.SetPointCloud` | src/lib.rs:130-134 | the object's new state is `Session.SetPointCloud` of its old state |
| `Window.WindowContext.Resize` | src/lib.rs:136-151 | the object's new state is `Session.Resize` of its old state |
| `Window.WindowContext.Update` | src/lib.rs:153-180 | the object's new state is `Session.Update` of its old state, and the invariant is kept |
| `Window.WindowContext.SetScene` | src/lib.rs:226-228 | the object's new state is `Session.SetScene` of its old state |
| `Window.WindowContext.SetCamera` | src/lib.rs:230-236 | the object's new state is `Session.SetCamera` of its old state |
| `Window.WindowContext.UpdateCamera` | src/lib.rs:238-246 | the object's new state is `Session.UpdateCamera` of its old state |
| `EventLoop.HandleKey` | src/lib.rs:299-324 | it panics (the `rnd_idx % 0` of src/lib.rs:315) exactly on a release of `R` in a scene with no cameras; a panic inside `Scene::camera` is not modelled. Otherwise every key, pressed or released, is forwarded to the controller, and a press changes nothing else. Releasing `G` sorts once with the active camera and starts no transition. Releasing a number key `n` with a scene starts a 200 ms transition from the active camera to `SceneView(scene, n)`, for every `n`, including one at or beyond the camera count. Releasing `R` with a scene starts one to scene camera `rnd % num_cameras`, an index below the camera count. Other keys, and number keys or `R` without a scene, change no camera state |
| `EventLoop.Redraw` | src/lib.rs:348-363 | a redraw updates the context with the elapsed time and records now as `last`; a lost surface is then resized to the window's current size, running out of memory requests the exit, and any other error changes no state |
| `EventLoop.Handle` | src/lib.rs:283-370 | for the loop's own window: close sets the exit flag; `Resized` and `ScaleFactorChanged` are `resize` with no scale factor and with the new one; a keyboard event without a key code changes nothing, and one with a key code is `HandleKey` (its panic included); a wheel event passes the line or pixel `dy` to the controller's scroll; a left or right button event sets that button's flag, other buttons change nothing; a redraw is `Redraw`. A device mouse motion reaches the controller whatever the window. Events for another window, `MainEventsCleared` and all other events change nothing. Over every event: the invariant and the window id are kept; it panics exactly on `R` released in an empty scene (the `% 0` of src/lib.rs:315; a panic inside `Scene::camera` is not modelled); the sort and surface logs only grow; the sort log changes only on a redraw or on release of `G`; only a redraw moves `last`; the exit flag changes only on a close request or an out-of-memory render |
| `EventLoop.RunEvents` | src/lib.rs:283-370 | any sequence of events that does not panic keeps the invariant and the window id, and only appends to the sort and surface logs |
| `EventLoop.Start` | src/lib.rs:271-281 | before the loop runs, the active camera is the default camera for the window size, the config size is the window size and the surface was configured once with it, the scale factor is the window's, the controller is fresh, the point cloud is attached and sorted exactly once with the default camera, the scene is the given one, nothing is pending, and `last` is the start instant |
| `EventLoop.LostSurfaceIsReconfigured` | src/lib.rs:357 | after a lost surface, the surface is configured with the window's current (non-zero) size, which becomes the config size, and the updated camera's projection is resized to it |
| `Viewer.FrameLoop.constructor` | src/lib.rs:271-281 | the new loop is in the state `EventLoop.Start` describes |
| `Viewer.FrameLoop.Handle` | src/lib.rs:283-370 | the loop's new state is `EventLoop.Handle` of its old state, or unchanged with `panicked` set when that is a panic |
| `Viewer.FrameLoop.HandleKey` | src/lib.rs:299-324 | the context's new state is `EventLoop.HandleKey` of its old state, or unchanged with `panicked` set |
| `Viewer.FrameLoop.Redraw` | src/lib.rs:348-363 | the loop's new state is `EventLoop.Redraw` of its old state |

## Left out

- GPU instance, adapter, device, surface creation and format selection (src/lib.rs:48-101) are asynchronous foreign calls. Only their effect on the config size and the first surface configuration is modelled.
- Render-pass encoding, queue submission and presentation (src/lib.rs:182-224) are GPU work. `render` is modelled only by its result, which is part of `World`.
- `smoothstep`, `lerp`, `PerspectiveCamera::new`, `PerspectiveProjection::resize` and the aspect and field-of-view arithmetic (src/lib.rs:105-109) are floating-point code and stay uninterpreted, as camera terms. The model does not prove the properties of the easing curve or of interpolation.
- `Session.Progress` computes in exact rationals, whereas the source computes in `f32` from `as_secs_f32`. Rounding is not modelled.
- `Session.Update` records the controller's state in the `Navigated` camera term but does not model what `CameraController::update_camera` does to the controller itself. The controller's internals (`process_keyboard`, `process_scroll`, `process_mouse`, `update_camera`) are not part of this model. Forwarded inputs are only logged.
- `PointCloud::sort` and `load_ply`, `Scene::from_json` and `Scene::camera` are not part of this model. A sort is an entry in the sort log. A scene camera is the term `SceneView(scene, index)`. A number key `n` at or beyond the scene's camera count (src/lib.rs:309 passes `num` unreduced) is modelled as starting a transition to `SceneView(scene, n)`; a panic inside `Scene::camera` for such an index is not modelled. The only panic modelled is the `rnd_idx % 0` of src/lib.rs:315.
- `utils::key_to_num` is not part of this model. `Key.Number(n)` stands for any key it maps to `n`, and the model takes `G` and `R` not to be such keys.
- The window size derived from the scene's first camera (src/lib.rs:257-263) is floating-point scaling. The window size is an input.
- Window building, `event_loop.run`, `request_redraw` on `MainEventsCleared`, and the `println!` of transient render errors (src/lib.rs:253-269, 361, 364-368) are windowing and console I/O.
- `rand::random` and `Instant::now` are inputs (`World`). `Instant` subtraction is modelled as saturating at zero.
- Integer widths are not modelled: `u32` sizes, `usize` random numbers and `Duration` are unbounded naturals. No operation of the core depends on their wrap-around.
- The `f64` to `f32` conversion of the scale factor is not modelled; scale factors are exact reals.

/**
 * The state of `WindowContext` that survives the GPU plumbing, and the
 * operations that change it (`set_point_cloud`, `resize`, `update`,
 * `set_scene`, `set_camera`, `update_camera`), as functions from the old
 * state to the new one. The class `Window.WindowContext` is proved to
 * follow these functions; the properties of the window context are proved
 * about them.
 *
 * Durations are whole nanoseconds (Rust's `Duration`).
 */
module Session {
  import opened Wrappers
  import opened Collaborators

  /**
   * The pending camera transition `((time_left, total), (start, target))`
   * held in `next_camera`.
   */
  datatype Transition = Transition(timeLeft: nat, total: nat, start: Camera, target: Camera)

  /**
   * The window context: `config.width`/`config.height` (size), the DPI
   * scale factor, the active camera, the pending transition, the controller,
   * whether a point cloud is attached, the scene, and two logs of side
   * effects: the cameras the point cloud was sorted with (`pc.sort`), and the
   * sizes the surface was configured with (`surface.configure`).
   */
  datatype Context = Context(
    size: Size,
    scaleFactor: real,
    camera: Camera,
    next: Option<Transition>,
    controller: Controller,
    hasPointCloud: bool,
    scene: Option<Scene>,
    sorts: seq<Camera>,
    configured: seq<Size>)
  {
    /**
     * The invariant every operation keeps: a pending transition has a
     * non-zero total duration and no more time left than that total, and the
     * surface was last configured with the current config size.
     */
    predicate Valid() {
      (next.Some? ==> 0 < next.value.total && next.value.timeLeft <= next.value.total)
      && |configured| > 0 && configured[|configured| - 1] == size
    }
  }

  /**
   * `s` and `r` have the same config size, scale factor, surface
   * configurations, point cloud and scene; the camera, the pending
   * transition, the controller and the sort log may differ.
   */
  predicate SameSurface(s: Context, r: Context) {
    r.size == s.size && r.scaleFactor == s.scaleFactor && r.configured == s.configured
    && r.hasPointCloud == s.hasPointCloud && r.scene == s.scene
  }

  /** Only the camera, the pending transition and the sort log may differ between `s` and `r`. */
  predicate SameSurfaceAndInputs(s: Context, r: Context) {
    SameSurface(s, r) && r.controller == s.controller
  }

  /** From `s` to `r` the point cloud was sorted exactly once, with camera `c`, if one is attached, and not at all otherwise. */
  predicate SortedOnceIfAttached(s: Context, r: Context, c: Camera) {
    r.sorts == s.sorts + (if s.hasPointCloud then [c] else [])
  }

  /**
   * The blend argument of a transition with `left` of `total` nanoseconds
   * still to run: `1 - left / total`, the fraction of the transition that has
   * elapsed. It is what `smoothstep` is applied to.
   */
  function Progress(left: nat, total: nat): (x: real)
    requires 0 < total && left <= total
    ensures 0.0 <= x <= 1.0
    ensures x == 0.0 <==> left == total
    ensures x == 1.0 <==> left == 0
  {
    var fractionLeft := (left as real) / (total as real);
    assert (left as real) == fractionLeft * (total as real);
    assert 0.0 <= fractionLeft;
    1.0 - fractionLeft
  }

  /** The progress of a transition only grows as its time left shrinks. */
  lemma ProgressGrowsAsTimeRunsOut(earlier: nat, later: nat, total: nat)
    requires 0 < total && later <= earlier <= total
    ensures Progress(earlier, total) <= Progress(later, total)
  {
    var t := total as real;
    var gap := ((earlier - later) as real) / t;
    assert gap * t == (earlier - later) as real;
    assert 0.0 <= gap;
    assert (earlier as real) / t == (later as real) / t + gap;
  }

  /**
   * `WindowContext::new`: the surface configured with the window size, the
   * default camera for that size, nothing pending, attached or sorted.
   */
  function Initial(windowSize: Size, scaleFactor: real): (s: Context)
    ensures s.Valid()
    ensures s.size == windowSize && s.configured == [windowSize] && s.scaleFactor == scaleFactor
    ensures s.camera == Default(windowSize) && s.controller == NEW_CONTROLLER
    ensures s.next.None? && !s.hasPointCloud && s.scene.None? && s.sorts == []
  {
    Context(windowSize, scaleFactor, Default(windowSize), None, NEW_CONTROLLER, false, None, [], [windowSize])
  }

  /** `set_point_cloud`: attaching a point cloud sorts it once, with the active camera. */
  function SetPointCloud(s: Context): (r: Context)
    requires s.Valid()
    ensures r.Valid() && r.hasPointCloud
    ensures r.sorts == s.sorts + [s.camera]
    ensures r.camera == s.camera && r.next == s.next
    ensures r.size == s.size && r.configured == s.configured && r.scaleFactor == s.scaleFactor
    ensures r.controller == s.controller && r.scene == s.scene
  {
    s.(hasPointCloud := true, sorts := s.sorts + [s.camera])
  }

  /** `set_scene`: the scene is replaced; nothing else changes. */
  function SetScene(s: Context, scene: Scene): (r: Context)
    requires s.Valid()
    ensures r.Valid() && r.scene == Some(scene)
    ensures r.camera == s.camera && r.next == s.next && r.sorts == s.sorts && r.hasPointCloud == s.hasPointCloud
    ensures r.size == s.size && r.configured == s.configured && r.scaleFactor == s.scaleFactor
    ensures r.controller == s.controller
  {
    s.(scene := Some(scene))
  }

  /**
   * `resize`: a size with both dimensions positive becomes the config size,
   * reconfigures the surface and resizes the active camera's projection; a
   * size with a zero dimension changes none of these. A scale factor is taken
   * only when one is given and it is positive.
   */
  function Resize(s: Context, newSize: Size, scaleFactor: Option<real>): (r: Context)
    requires s.Valid()
    ensures r.Valid()
    ensures newSize.IsNonZero() ==>
              r.size == newSize && r.configured == s.configured + [newSize]
              && r.camera == Reprojected(s.camera, newSize)
    ensures !newSize.IsNonZero() ==> r.size == s.size && r.configured == s.configured && r.camera == s.camera
    ensures r.scaleFactor == if scaleFactor.Some? && scaleFactor.value > 0.0 then scaleFactor.value else s.scaleFactor
    ensures r.next == s.next && r.sorts == s.sorts
    ensures r.controller == s.controller && r.hasPointCloud == s.hasPointCloud && r.scene == s.scene
  {
    var sized :=
      if newSize.width > 0 && newSize.height > 0 then
        s.(size := newSize, camera := Reprojected(s.camera, newSize), configured := s.configured + [newSize])
      else
        s;
    match scaleFactor
    case Some(f) => if f > 0.0 then sized.(scaleFactor := f) else sized
    case None => sized
  }

  /**
   * `update` for a frame of `dt` nanoseconds.
   *
   * With a transition pending and `dt <= time_left` (`checked_sub` gives a
   * value) the transition counts down by exactly `dt` and stays pending, even
   * when no time is left, and the camera is the blend of start and target at
   * the new progress; nothing is sorted. With `dt > time_left` the camera
   * becomes the target, resized to the config size, the point cloud is
   * sorted once with it, and the transition is dropped. With nothing pending
   * the controller moves the camera and nothing is sorted.
   */
  function Update(s: Context, dt: nat): (r: Context)
    requires s.Valid()
    ensures r.Valid() && SameSurfaceAndInputs(s, r)
    ensures r.next.Some? <==> s.next.Some? && dt <= s.next.value.timeLeft
    ensures s.next.Some? && dt <= s.next.value.timeLeft ==>
              var t := s.next.value;
              && r.next.value.timeLeft == t.timeLeft - dt <= t.total
              && r.next.value.total == t.total
              && r.next.value.start == t.start && r.next.value.target == t.target
              && r.camera == Interpolated(t.start, t.target, Progress(t.timeLeft - dt, t.total))
              && r.sorts == s.sorts
    ensures s.next.Some? && dt > s.next.value.timeLeft ==>
              && r.camera == Reprojected(s.next.value.target, s.size)
              && SortedOnceIfAttached(s, r, r.camera)
    ensures s.next.None? ==> r.camera == Navigated(s.camera, s.controller, dt) && r.sorts == s.sorts
  {
    match s.next
    case Some(t) =>
      if dt <= t.timeLeft then
        var newLeft := t.timeLeft - dt;
        s.(next := Some(t.(timeLeft := newLeft)),
           camera := Interpolated(t.start, t.target, Progress(newLeft, t.total)))
      else
        var settled := Reprojected(t.target, s.size);
        s.(camera := settled,
           sorts := if s.hasPointCloud then s.sorts + [settled] else s.sorts,
           next := None)
    case None =>
      s.(camera := Navigated(s.camera, s.controller, dt))
  }

  /**
   * `update_camera`: the requested camera, resized to the config size,
   * becomes the active camera at once and the point cloud is sorted once with
   * it; a pending transition is left as it is.
   */
  function UpdateCamera(s: Context, camera: Camera): (r: Context)
    requires s.Valid()
    ensures r.Valid() && SameSurfaceAndInputs(s, r)
    ensures r.camera == Reprojected(camera, s.size)
    ensures SortedOnceIfAttached(s, r, r.camera)
    ensures r.next == s.next
  {
    var active := Reprojected(camera, s.size);
    s.(camera := active, sorts := if s.hasPointCloud then s.sorts + [active] else s.sorts)
  }

  /**
   * `set_camera`: a zero duration applies the camera at once (as
   * `update_camera`); a non-zero duration starts a transition from the
   * active camera to the requested one, replacing any pending transition,
   * and neither moves the camera nor sorts.
   */
  function SetCamera(s: Context, camera: Camera, duration: nat): (r: Context)
    requires s.Valid()
    ensures r.Valid() && SameSurfaceAndInputs(s, r)
    ensures duration == 0 ==>
              r.camera == Reprojected(camera, s.size) && SortedOnceIfAttached(s, r, r.camera) && r.next == s.next
    ensures duration > 0 ==>
              r.next == Some(Transition(duration, duration, s.camera, camera))
              && r.camera == s.camera && r.sorts == s.sorts
  {
    if duration == 0 then
      UpdateCamera(s, camera)
    else
      s.(next := Some(Transition(duration, duration, s.camera, camera)))
  }

  /** A zero-size resize, without a scale factor, leaves the whole window context as it was. */
  lemma ZeroSizeResizeChangesNothing(s: Context, newSize: Size)
    requires s.Valid() && !newSize.IsNonZero()
    ensures Resize(s, newSize, None) == s
  {
  }

  /** A later transition request replaces an earlier one; the start is still the active camera. */
  lemma LastTransitionRequestWins(s: Context, first: Camera, second: Camera, d1: nat, d2: nat)
    requires s.Valid() && d1 > 0 && d2 > 0
    ensures SetCamera(SetCamera(s, first, d1), second, d2).next == Some(Transition(d2, d2, s.camera, second))
  {
  }

  /**
   * A zero-duration camera change made while a transition is pending does
   * not cancel it: the next frame that does not finish the transition shows
   * the blend again, and the requested camera is gone.
   */
  lemma ImmediateChangeYieldsToPendingTransition(s: Context, camera: Camera, dt: nat)
    requires s.Valid() && s.next.Some? && dt <= s.next.value.timeLeft
    ensures var t := s.next.value;
            Update(SetCamera(s, camera, 0), dt).camera
            == Interpolated(t.start, t.target, Progress(t.timeLeft - dt, t.total))
  {
  }
}

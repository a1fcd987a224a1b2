/**
 * Runs of consecutive frames: what a sequence of `update` calls does to the
 * camera transition, the active camera and the sort log.
 */
module FrameRuns {
  import opened Wrappers
  import opened Collaborators
  import opened Session

  /** The total of a sequence of frame durations. */
  function Sum(dts: seq<nat>): nat {
    if dts == [] then 0 else dts[0] + Sum(dts[1..])
  }

  /** The window context after one `update` per frame, with the frame durations `dts` in order. */
  function RunUpdates(s: Context, dts: seq<nat>): (r: Context)
    requires s.Valid()
    ensures r.Valid() && SameSurfaceAndInputs(s, r)
    ensures s.sorts <= r.sorts
    decreases |dts|
  {
    if dts == [] then s else RunUpdates(Update(s, dts[0]), dts[1..])
  }

  /** The camera `c` after the controller moved it once per frame, for the frame durations `dts`. */
  function NavigateAll(c: Camera, controller: Controller, dts: seq<nat>): Camera
    decreases |dts|
  {
    if dts == [] then c else NavigateAll(Navigated(c, controller, dts[0]), controller, dts[1..])
  }

  /**
   * With no transition pending, every frame only applies the controller to
   * the previous camera: nothing becomes pending and nothing is sorted.
   */
  lemma {:induction false} IdleRun(s: Context, dts: seq<nat>)
    requires s.Valid() && s.next.None?
    ensures var r := RunUpdates(s, dts);
            r.next.None? && r.sorts == s.sorts && r.camera == NavigateAll(s.camera, s.controller, dts)
    decreases |dts|
  {
    if dts != [] {
      IdleRun(Update(s, dts[0]), dts[1..]);
    }
  }

  /**
   * While the frames add up to no more than the time left, the transition
   * stays pending, its time left drops by exactly their total, and nothing is
   * sorted; after at least one frame the camera is the blend at the reached
   * progress.
   */
  lemma {:induction false} PendingRun(s: Context, dts: seq<nat>)
    requires s.Valid() && s.next.Some? && Sum(dts) <= s.next.value.timeLeft
    ensures var r := RunUpdates(s, dts);
            var t := s.next.value;
            && r.next == Some(t.(timeLeft := t.timeLeft - Sum(dts)))
            && r.sorts == s.sorts
            && (dts != [] ==> r.camera == Interpolated(t.start, t.target, Progress(t.timeLeft - Sum(dts), t.total)))
    decreases |dts|
  {
    if dts != [] {
      PendingRun(Update(s, dts[0]), dts[1..]);
    }
  }

  /**
   * Once the frames add up to more than the time left, the transition is
   * gone and the point cloud was sorted exactly once during the run, with the
   * target resized to the config size, if one is attached.
   */
  lemma {:induction false} CompletingRun(s: Context, dts: seq<nat>)
    requires s.Valid() && s.next.Some? && Sum(dts) > s.next.value.timeLeft
    ensures var r := RunUpdates(s, dts);
            r.next.None? && SortedOnceIfAttached(s, r, Reprojected(s.next.value.target, s.size))
    decreases |dts|
  {
    var u := Update(s, dts[0]);
    if dts[0] > s.next.value.timeLeft {
      IdleRun(u, dts[1..]);
    } else {
      CompletingRun(u, dts[1..]);
    }
  }

  /**
   * A transition with `L` nanoseconds left ends within a run exactly when the
   * run's frames add up to more than `L`, and then it sorts the point cloud
   * once (if one is attached); otherwise it sorts nothing.
   */
  lemma TransitionEndsIffTimeExceeded(s: Context, dts: seq<nat>)
    requires s.Valid() && s.next.Some?
    ensures var r := RunUpdates(s, dts);
            && (r.next.None? <==> Sum(dts) > s.next.value.timeLeft)
            && |r.sorts| == |s.sorts| + (if s.hasPointCloud && Sum(dts) > s.next.value.timeLeft then 1 else 0)
  {
    if Sum(dts) > s.next.value.timeLeft {
      CompletingRun(s, dts);
    } else {
      PendingRun(s, dts);
    }
  }

  /** 200 milliseconds and 50 milliseconds, in nanoseconds. */
  const TRANSITION_NANOS: nat := 200_000_000
  const QUARTER_NANOS: nat := 50_000_000

  /**
   * From any state (a pending transition is replaced by the new request), a
   * 200 ms transition fed four 50 ms frames has used up all its time but
   * is still pending (the countdown reached zero without `checked_sub`
   * failing): the camera is the blend at full progress, nothing is sorted.
   * Only a further frame with a non-zero duration ends it, with the target
   * resized to the config size and one sort.
   */
  lemma FourQuarterFrames(s: Context, target: Camera, dt: nat)
    requires s.Valid() && dt > 0
    ensures var four := RunUpdates(SetCamera(s, target, TRANSITION_NANOS), [QUARTER_NANOS, QUARTER_NANOS, QUARTER_NANOS, QUARTER_NANOS]);
            && four.next == Some(Transition(0, TRANSITION_NANOS, s.camera, target))
            && four.camera == Interpolated(s.camera, target, 1.0)
            && four.sorts == s.sorts
            && var five := Update(four, dt);
               five.next.None? && five.camera == Reprojected(target, s.size) && SortedOnceIfAttached(s, five, five.camera)
  {
    var started := SetCamera(s, target, TRANSITION_NANOS);
    var quarters := [QUARTER_NANOS, QUARTER_NANOS, QUARTER_NANOS, QUARTER_NANOS];
    assert Sum(quarters[3..]) == QUARTER_NANOS;
    assert Sum(quarters[2..]) == 2 * QUARTER_NANOS by { assert quarters[2..][1..] == quarters[3..]; }
    assert Sum(quarters[1..]) == 3 * QUARTER_NANOS by { assert quarters[1..][1..] == quarters[2..]; }
    assert Sum(quarters) == TRANSITION_NANOS;
    PendingRun(started, quarters);
  }
}

/**
 * The closure `open_window` hands to `event_loop.run`, as a function from
 * the loop's state and one event to the next state. Everything the closure
 * reads from the outside world while it handles an event (the clock, the
 * random number generator, the outcome of rendering, the window's current
 * size) is given as a `World` value.
 */
module EventLoop {
  import opened Wrappers
  import opened Collaborators
  import opened Session

  /** `Duration::from_millis(200)` in nanoseconds: the transition a key starts. */
  const KEY_TRANSITION_NANOS: nat := 200 * 1_000_000

  datatype ElementState = Pressed | Released

  datatype ScrollDelta = LineDelta(columns: real, lines: real) | PixelDelta(x: real, y: real)

  datatype MouseButton = Left | Right | Middle | OtherButton(id: nat)

  /** The window events the closure handles; all others are `OtherWindowEvent`. */
  datatype WindowEvent =
    | Resized(size: Size)
    | ScaleFactorChanged(scaleFactor: real, newInnerSize: Size)
    | CloseRequested
      /** `key` is `input.virtual_keycode`, which may be absent. */
    | KeyboardInput(key: Option<Key>, state: ElementState)
    | MouseWheel(delta: ScrollDelta)
    | MouseInput(buttonState: ElementState, button: MouseButton)
    | OtherWindowEvent

  datatype Event =
    | WindowEvent(windowId: nat, event: WindowEvent)
    | DeviceMouseMotion(dx: real, dy: real)
    | RedrawRequested(windowId: nat)
    | MainEventsCleared
    | OtherEvent

  /** `wgpu::SurfaceError`. */
  datatype SurfaceError = Lost | Outdated | Timeout | OutOfMemory

  /** What `render` returned. */
  datatype RenderResult = Presented | Failed(error: SurfaceError)

  /**
   * The outside world while one event is handled: `Instant::now()`,
   * `rand::random::<usize>()`, the result of `render` and
   * `window.inner_size()`.
   */
  datatype World = World(now: nat, random: nat, render: RenderResult, innerSize: Size)

  /**
   * The state the closure owns: the window context, the id of its window,
   * `last` (the instant of the previous redraw, in nanoseconds) and whether
   * `control_flow` was set to `Exit`.
   */
  datatype LoopState = LoopState(context: Context, windowId: nat, last: nat, exit: bool)

  /** The outcome of handling one event: the next state, or a panic (which ends the program). */
  datatype Step = Continue(state: LoopState) | Panic

  /** The camera, the pending transition and the sort log are the same in `c` and `r`. */
  predicate SameCameraState(c: Context, r: Context) {
    r.camera == c.camera && r.next == c.next && r.sorts == c.sorts
  }

  /**
   * A key that was pressed or released. On release, `G` sorts the point cloud
   * with the active camera, a number key with a scene present starts a
   * 200 ms transition to that scene camera, and `R` with a scene present
   * starts one to the scene camera `random % num_cameras` (which panics when
   * the scene has no camera). Every key, pressed or released, is then
   * forwarded to the controller. `None` is the panic of `% 0`, the only
   * panic the model has: `Scene::camera` is taken to return a camera for
   * every index, including one at or beyond the scene's camera count.
   */
  function HandleKey(c: Context, key: Key, state: ElementState, random: nat): (r: Option<Context>)
    requires c.Valid()
    ensures r.None? <==> state == Released && key == R && c.scene.Some? && c.scene.value.numCameras == 0
    ensures r.Some? ==>
              && r.value.Valid() && SameSurface(c, r.value)
              && r.value.controller == ProcessKeyboard(c.controller, key, state == Pressed)
    ensures state == Pressed ==> r.Some? && SameCameraState(c, r.value)
    ensures state == Released && key == G ==>
              && r.Some? && r.value.camera == c.camera && r.value.next == c.next
              && SortedOnceIfAttached(c, r.value, c.camera)
    ensures state == Released && key.Number? && c.scene.Some? ==>
              && r.Some? && r.value.camera == c.camera && r.value.sorts == c.sorts
              && r.value.next == Some(Transition(KEY_TRANSITION_NANOS, KEY_TRANSITION_NANOS, c.camera, SceneView(c.scene.value, key.n)))
    ensures state == Released && key == R && r.Some? && c.scene.Some? ==>
              && r.value.camera == c.camera && r.value.sorts == c.sorts
              && r.value.next == Some(Transition(KEY_TRANSITION_NANOS, KEY_TRANSITION_NANOS, c.camera,
                                                 SceneView(c.scene.value, random % c.scene.value.numCameras)))
              && r.value.next.value.target.index < c.scene.value.numCameras
    ensures (key.OtherKey? || ((key.Number? || key == R) && c.scene.None?)) ==> r.Some? && SameCameraState(c, r.value)
  {
    var acted :=
      if state == Released then
        match key
        case G => Some(if c.hasPointCloud then c.(sorts := c.sorts + [c.camera]) else c)
        case Number(n) =>
          Some(if c.scene.Some? then SetCamera(c, SceneView(c.scene.value, n), KEY_TRANSITION_NANOS) else c)
        case R =>
          if c.scene.None? then Some(c)
          else if c.scene.value.numCameras == 0 then None
          else Some(SetCamera(c, SceneView(c.scene.value, random % c.scene.value.numCameras), KEY_TRANSITION_NANOS))
        case OtherKey(_) => Some(c)
      else
        Some(c);
    match acted
    case None => None
    case Some(a) => Some(a.(controller := ProcessKeyboard(a.controller, key, state == Pressed)))
  }

  /** The duration from `last` to `now`: `now - last`, and zero if `now` is earlier (the subtraction saturates). */
  function Elapsed(last: nat, now: nat): nat {
    if now >= last then now - last else 0
  }

  /**
   * A redraw: `update` with the time since the previous redraw, then
   * `render`. A lost surface is resized to the window's current size, running
   * out of memory requests the exit, and every other error only gets logged.
   */
  function Redraw(s: LoopState, world: World): (r: LoopState)
    requires s.context.Valid()
    ensures r.context.Valid() && r.windowId == s.windowId && r.last == world.now
    ensures var updated := Update(s.context, Elapsed(s.last, world.now));
            && (world.render == Failed(Lost) ==> r.context == Resize(updated, world.innerSize, None))
            && (world.render != Failed(Lost) ==> r.context == updated)
            && (r.exit <==> s.exit || world.render == Failed(OutOfMemory))
  {
    var updated := s.(context := Update(s.context, Elapsed(s.last, world.now)), last := world.now);
    match world.render
    case Presented => updated
    case Failed(Lost) => updated.(context := Resize(updated.context, world.innerSize, None))
    case Failed(OutOfMemory) => updated.(exit := true)
    case Failed(_) => updated
  }

  /** The scroll amount the closure passes to `process_scroll`: the line delta's `dy`, or the pixel delta's `y`. */
  function ScrollAmount(delta: ScrollDelta): real {
    match delta
    case LineDelta(_, lines) => lines
    case PixelDelta(_, y) => y
  }

  /** `ev` is a window event or a redraw request for a window other than the loop's own. */
  predicate ForOtherWindow(s: LoopState, ev: Event) {
    (ev.WindowEvent? && ev.windowId != s.windowId) || (ev.RedrawRequested? && ev.windowId != s.windowId)
  }

  /** `ev` is the release of `key` in the loop's own window. */
  predicate IsRelease(s: LoopState, ev: Event, key: Key) {
    ev.WindowEvent? && ev.windowId == s.windowId && ev.event.KeyboardInput?
    && ev.event.key == Some(key) && ev.event.state == Released
  }

  /** `ev` is a window event of the loop's own window. */
  predicate IsOwnWindowEvent(s: LoopState, ev: Event) {
    ev.WindowEvent? && ev.windowId == s.windowId
  }

  /** `s` with the controller of its window context replaced by `controller`. */
  function WithController(s: LoopState, controller: Controller): LoopState {
    s.(context := s.context.(controller := controller))
  }

  /**
   * One call of the closure. `Panic` is the panic of `rnd_idx % 0`; a panic
   * inside `Scene::camera` is not modelled.
   */
  function Handle(s: LoopState, ev: Event, world: World): (r: Step)
    requires s.context.Valid()
    ensures r.Continue? ==> r.state.context.Valid() && r.state.windowId == s.windowId
    ensures r.Panic? <==> IsRelease(s, ev, R) && s.context.scene.Some? && s.context.scene.value.numCameras == 0
    ensures ForOtherWindow(s, ev) ==> r == Continue(s)
    ensures r.Continue? ==>
              && s.context.sorts <= r.state.context.sorts
              && s.context.configured <= r.state.context.configured
    ensures r.Continue? && r.state.context.sorts != s.context.sorts ==>
              (ev.RedrawRequested? && ev.windowId == s.windowId) || IsRelease(s, ev, G)
    ensures r.Continue? && !ev.RedrawRequested? ==> r.state.last == s.last
    ensures r.Continue? && r.state.exit != s.exit ==>
              ev == WindowEvent(s.windowId, CloseRequested)
              || (ev == RedrawRequested(s.windowId) && world.render == Failed(OutOfMemory))
    // What each event of the loop's own window does.
    ensures ev == WindowEvent(s.windowId, CloseRequested) ==> r == Continue(s.(exit := true))
    ensures IsOwnWindowEvent(s, ev) && ev.event.Resized? ==>
              r == Continue(s.(context := Resize(s.context, ev.event.size, None)))
    ensures IsOwnWindowEvent(s, ev) && ev.event.ScaleFactorChanged? ==>
              r == Continue(s.(context := Resize(s.context, ev.event.newInnerSize, Some(ev.event.scaleFactor))))
    ensures IsOwnWindowEvent(s, ev) && ev.event.KeyboardInput? && ev.event.key.None? ==> r == Continue(s)
    ensures IsOwnWindowEvent(s, ev) && ev.event.KeyboardInput? && ev.event.key.Some? ==>
              match HandleKey(s.context, ev.event.key.value, ev.event.state, world.random)
              case None => r == Panic
              case Some(next) => r == Continue(s.(context := next))
    ensures IsOwnWindowEvent(s, ev) && ev.event.MouseWheel? ==>
              r == Continue(WithController(s, ProcessScroll(s.context.controller, ScrollAmount(ev.event.delta))))
    ensures IsOwnWindowEvent(s, ev) && ev.event.MouseInput? && ev.event.button == Left ==>
              r == Continue(WithController(s, s.context.controller.(leftMousePressed := ev.event.buttonState == Pressed)))
    ensures IsOwnWindowEvent(s, ev) && ev.event.MouseInput? && ev.event.button == Right ==>
              r == Continue(WithController(s, s.context.controller.(rightMousePressed := ev.event.buttonState == Pressed)))
    ensures IsOwnWindowEvent(s, ev) && ev.event.MouseInput? && ev.event.button != Left && ev.event.button != Right ==>
              r == Continue(s)
    ensures IsOwnWindowEvent(s, ev) && ev.event == OtherWindowEvent ==> r == Continue(s)
    // Events that are not window events.
    ensures ev.DeviceMouseMotion? ==> r == Continue(WithController(s, ProcessMouse(s.context.controller, ev.dx, ev.dy)))
    ensures ev == RedrawRequested(s.windowId) ==> r == Continue(Redraw(s, world))
    ensures ev == MainEventsCleared || ev == OtherEvent ==> r == Continue(s)
  {
    match ev
    case WindowEvent(id, event) =>
      if id != s.windowId then Continue(s)
      else
        var c := s.context;
        (match event
        case Resized(size) => Continue(s.(context := Resize(c, size, None)))
        case ScaleFactorChanged(factor, size) => Continue(s.(context := Resize(c, size, Some(factor))))
        case CloseRequested => Continue(s.(exit := true))
        case KeyboardInput(key, state) =>
          if key.None? then Continue(s)
          else
            (match HandleKey(c, key.value, state, world.random)
             case None => Panic
             case Some(next) => Continue(s.(context := next)))
        case MouseWheel(delta) => Continue(WithController(s, ProcessScroll(c.controller, ScrollAmount(delta))))
        case MouseInput(buttonState, button) =>
          (match button
           case Left => Continue(WithController(s, c.controller.(leftMousePressed := buttonState == Pressed)))
           case Right => Continue(WithController(s, c.controller.(rightMousePressed := buttonState == Pressed)))
           case _ => Continue(s))
        case OtherWindowEvent => Continue(s))
    case DeviceMouseMotion(dx, dy) =>
      Continue(WithController(s, ProcessMouse(s.context.controller, dx, dy)))
    case RedrawRequested(id) =>
      if id != s.windowId then Continue(s) else Continue(Redraw(s, world))
    case MainEventsCleared => Continue(s)
    case OtherEvent => Continue(s)
  }

  /** The loop's state after handling `events` in order, each with the world it was handled in; a panic ends the run. */
  function RunEvents(s: LoopState, events: seq<(Event, World)>): (r: Step)
    requires s.context.Valid()
    ensures r.Continue? ==>
              && r.state.context.Valid() && r.state.windowId == s.windowId
              && s.context.sorts <= r.state.context.sorts
              && s.context.configured <= r.state.context.configured
    decreases |events|
  {
    if events == [] then Continue(s)
    else
      match Handle(s, events[0].0, events[0].1)
      case Panic => Panic
      case Continue(next) => RunEvents(next, events[1..])
  }

  /**
   * What `open_window` does before the loop starts: create the window
   * context, attach the scene if there is one, take the first instant and
   * attach the point cloud, which sorts it once with the default camera.
   */
  function Start(windowSize: Size, scaleFactor: real, scene: Option<Scene>, windowId: nat, now: nat): (s: LoopState)
    ensures s.context.Valid() && s.context.hasPointCloud && s.context.scene == scene
    ensures s.context.camera == Default(windowSize) && s.context.sorts == [Default(windowSize)] && s.context.next.None?
    ensures s.context.size == windowSize && s.context.configured == [windowSize]
    ensures s.context.scaleFactor == scaleFactor && s.context.controller == NEW_CONTROLLER
    ensures s.windowId == windowId && s.last == now && !s.exit
  {
    var created := Initial(windowSize, scaleFactor);
    var withScene := if scene.Some? then SetScene(created, scene.value) else created;
    LoopState(SetPointCloud(withScene), windowId, now, false)
  }

  /**
   * A lost surface is reconfigured with the window's current size, when that
   * size is not zero, and the camera becomes the updated camera with its
   * projection resized to that size.
   */
  lemma LostSurfaceIsReconfigured(s: LoopState, world: World)
    requires s.context.Valid() && world.render == Failed(Lost) && world.innerSize.IsNonZero()
    ensures var r := Redraw(s, world);
            var updated := Update(s.context, Elapsed(s.last, world.now));
            && r.context.configured == s.context.configured + [world.innerSize]
            && r.context.size == world.innerSize
            && r.context.camera == Reprojected(updated.camera, world.innerSize)
            && r.exit == s.exit
  {
  }
}

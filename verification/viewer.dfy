/**
 * `open_window` and the closure it runs on every event, as an object that
 * owns the window context and the closure's own variables (`last` and the
 * control flow), proved to follow `EventLoop`.
 */
module Viewer {
  import opened Wrappers
  import opened Collaborators
  import opened EventLoop
  import Window

  class FrameLoop {
    const context: Window.WindowContext
    const windowId: nat
    /** The instant of the previous redraw, in nanoseconds. */
    var last: nat
    /** `*control_flow == ControlFlow::Exit`. */
    var exit: bool

    ghost function State(): LoopState
      reads this, context
    {
      LoopState(context.State(), windowId, last, exit)
    }

    /**
     * `open_window` up to `event_loop.run`, for a window of the given size,
     * scale factor and id, at the instant `now`.
     */
    constructor (windowSize: Size, scaleFactor: real, scene: Option<Scene>, windowId: nat, now: nat)
      ensures fresh(context) && context.Valid()
      ensures State() == Start(windowSize, scaleFactor, scene, windowId, now)
    {
      var state := new Window.WindowContext(windowSize, scaleFactor);
      if scene.Some? {
        state.SetScene(scene.value);
      }
      state.SetPointCloud();
      context := state;
      this.windowId := windowId;
      last := now;
      exit := false;
    }

    /** One call of the closure; `panicked` is the panic of `% 0` on `R` with an empty scene. */
    method Handle(ev: Event, world: World) returns (panicked: bool)
      requires context.Valid()
      modifies this, context
      ensures context.Valid()
      ensures var step := EventLoop.Handle(old(State()), ev, world);
              if step.Panic? then panicked && State() == old(State())
              else !panicked && State() == step.state
    {
      panicked := false;
      match ev {
        case WindowEvent(id, event) =>
          if id == windowId {
            match event {
              case Resized(size) =>
                context.Resize(size, None);
              case ScaleFactorChanged(factor, size) =>
                context.Resize(size, Some(factor));
              case CloseRequested =>
                exit := true;
              case KeyboardInput(key, state) =>
                if key.Some? {
                  panicked := HandleKey(key.value, state, world.random);
                }
              case MouseWheel(delta) =>
                match delta {
                  case LineDelta(_, lines) =>
                    context.controller := ProcessScroll(context.controller, lines);
                  case PixelDelta(_, y) =>
                    context.controller := ProcessScroll(context.controller, y);
                }
              case MouseInput(buttonState, button) =>
                match button {
                  case Left =>
                    context.controller := context.controller.(leftMousePressed := buttonState == Pressed);
                  case Right =>
                    context.controller := context.controller.(rightMousePressed := buttonState == Pressed);
                  case _ =>
                }
              case OtherWindowEvent =>
            }
          }
        case DeviceMouseMotion(dx, dy) =>
          context.controller := ProcessMouse(context.controller, dx, dy);
        case RedrawRequested(id) =>
          if id == windowId {
            Redraw(world);
          }
        case MainEventsCleared =>
        case OtherEvent =>
      }
    }

    /** The keyboard branch of the closure for a key with a virtual key code. */
    method HandleKey(key: Key, state: ElementState, random: nat) returns (panicked: bool)
      requires context.Valid()
      modifies context
      ensures context.Valid()
      ensures var r := EventLoop.HandleKey(old(context.State()), key, state, random);
              if r.None? then panicked && context.State() == old(context.State())
              else !panicked && context.State() == r.value
    {
      panicked := false;
      if state == Released {
        if key == G {
          if context.hasPointCloud {
            context.sorts := context.sorts + [context.camera];
          }
        } else if key.Number? {
          if context.scene.Some? {
            context.SetCamera(SceneView(context.scene.value, key.n), KEY_TRANSITION_NANOS);
          }
        } else if key == R {
          if context.scene.Some? {
            var scene := context.scene.value;
            if scene.numCameras == 0 {
              panicked := true;
              return;
            }
            context.SetCamera(SceneView(scene, random % scene.numCameras), KEY_TRANSITION_NANOS);
          }
        }
      }
      context.controller := ProcessKeyboard(context.controller, key, state == Pressed);
    }

    /** The redraw branch of the closure. */
    method Redraw(world: World)
      requires context.Valid()
      modifies this, context
      ensures context.Valid()
      ensures State() == EventLoop.Redraw(old(State()), world)
    {
      var dt := Elapsed(last, world.now);
      last := world.now;
      context.Update(dt);
      match world.render {
        case Presented =>
        case Failed(error) =>
          if error == Lost {
            context.Resize(world.innerSize, None);
          } else if error == OutOfMemory {
            exit := true;
          }
      }
    }
  }
}

/**
 * Stand-ins for the collaborators of the window context whose code is
 * floating point or lives in modules outside this model: the camera and its
 * projection, the navigation controller, the scene and window sizes.
 *
 * A camera is represented by the record of how it was produced. The
 * operations that compute cameras (`PerspectiveCamera::new`, `lerp`,
 * `smoothstep`, `PerspectiveProjection::resize`,
 * `CameraController::update_camera`) therefore stay uninterpreted: two
 * cameras are equal exactly when they were produced by the same operations
 * from the same arguments, which is what "the active camera IS the stored
 * target" means in the model.
 */
module Collaborators {

  /** A window or surface size in physical pixels (winit's `PhysicalSize<u32>`). */
  datatype Size = Size(width: nat, height: nat) {
    /** Both dimensions are positive: a size the surface may be configured with. */
    predicate IsNonZero() {
      width > 0 && height > 0
    }
  }

  /**
   * The keys the event loop tells apart: `G` (re-sort), `R` (random scene
   * camera), `Number(n)` for a key that `utils::key_to_num` maps to `n`, and
   * every other key.
   */
  datatype Key = G | R | Number(n: nat) | OtherKey(code: nat)

  /** One raw input forwarded to the navigation controller. */
  datatype ControllerInput =
    | KeyInput(key: Key, pressed: bool)
    | Scroll(delta: real)
    | MouseMotion(dx: real, dy: real)

  /**
   * The navigation controller's state as far as this model sees it: every
   * input it has been given and the two mouse-button flags the event loop
   * writes directly.
   */
  datatype Controller = Controller(inputs: seq<ControllerInput>, leftMousePressed: bool, rightMousePressed: bool)

  /** `CameraController::new`: no input yet, no button held. */
  const NEW_CONTROLLER := Controller([], false, false)

  /** `CameraController::process_keyboard`. */
  function ProcessKeyboard(c: Controller, key: Key, pressed: bool): Controller {
    c.(inputs := c.inputs + [KeyInput(key, pressed)])
  }

  /** `CameraController::process_scroll`. */
  function ProcessScroll(c: Controller, delta: real): Controller {
    c.(inputs := c.inputs + [Scroll(delta)])
  }

  /** `CameraController::process_mouse`. */
  function ProcessMouse(c: Controller, dx: real, dy: real): Controller {
    c.(inputs := c.inputs + [MouseMotion(dx, dy)])
  }

  /** A loaded scene: an identity and the number of cameras it stores. */
  datatype Scene = Scene(name: string, numCameras: nat)

  /** A perspective camera, as the record of the operation that produced it. */
  datatype Camera =
      /** The camera `WindowContext::new` builds at the origin for a window of this size. */
    | Default(size: Size)
      /** `scene.camera(index)`. */
    | SceneView(scene: Scene, index: nat)
      /** `base` with its projection resized to `size`. */
    | Reprojected(base: Camera, size: Size)
      /** `start.lerp(target, smoothstep(progress))`. */
    | Interpolated(start: Camera, target: Camera, progress: real)
      /** `base` after the controller, in the given state, moved it for a frame of `dt` nanoseconds. */
    | Navigated(base: Camera, controller: Controller, dt: nat)
}

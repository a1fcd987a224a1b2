/**
 * `WindowContext` as an object whose methods update its fields in place,
 * each proved to leave the object in the state the matching function of
 * `Session` computes from the state before the call. The device, queue,
 * adapter, surface handle, window and renderer are not fields here; the
 * effects on them that matter (`pc.sort`, `surface.configure`) are recorded
 * in the ghost logs `sorts` and `configured`.
 */
module Window {
  import opened Wrappers
  import opened Collaborators
  import Session

  class WindowContext {
    /** `config.width` and `config.height`. */
    var size: Size
    var scaleFactor: real
    var camera: Camera
    var nextCamera: Option<Session.Transition>
    var controller: Controller
    /** `pc.is_some()`. */
    var hasPointCloud: bool
    var scene: Option<Scene>
    /** The cameras the point cloud was sorted with, oldest first. */
    ghost var sorts: seq<Camera>
    /** The sizes the surface was configured with, oldest first. */
    ghost var configured: seq<Size>

    /** The window context as a value. */
    ghost function State(): Session.Context
      reads this
    {
      Session.Context(size, scaleFactor, camera, nextCamera, controller, hasPointCloud, scene, sorts, configured)
    }

    ghost predicate Valid()
      reads this
    {
      State().Valid()
    }

    /** `WindowContext::new` for a window of the given size and scale factor. */
    constructor (windowSize: Size, scaleFactor: real)
      ensures Valid() && State() == Session.Initial(windowSize, scaleFactor)
    {
      size := windowSize;
      configured := [windowSize];
      this.scaleFactor := scaleFactor;
      camera := Default(windowSize);
      nextCamera := None;
      controller := NEW_CONTROLLER;
      hasPointCloud := false;
      scene := None;
      sorts := [];
    }

    method SetPointCloud()
      requires Valid()
      modifies this
      ensures Valid() && State() == Session.SetPointCloud(old(State()))
    {
      sorts := sorts + [camera];
      hasPointCloud := true;
    }

    method Resize(newSize: Size, newScaleFactor: Option<real>)
      requires Valid()
      modifies this
      ensures Valid() && State() == Session.Resize(old(State()), newSize, newScaleFactor)
    {
      if newSize.width > 0 && newSize.height > 0 {
        size := newSize;
        camera := Reprojected(camera, newSize);
        configured := configured + [size];
      }
      if newScaleFactor.Some? {
        if newScaleFactor.value > 0.0 {
          scaleFactor := newScaleFactor.value;
        }
      }
    }

    method Update(dt: nat)
      requires Valid()
      modifies this
      ensures Valid() && State() == Session.Update(old(State()), dt)
    {
      match nextCamera {
        case Some(t) =>
          if dt <= t.timeLeft {
            var newLeft := t.timeLeft - dt;
            nextCamera := Some(t.(timeLeft := newLeft));
            camera := Interpolated(t.start, t.target, Session.Progress(newLeft, t.total));
          } else {
            camera := t.target;
            camera := Reprojected(camera, size);
            if hasPointCloud {
              sorts := sorts + [camera];
            }
            nextCamera := None;
          }
        case None =>
          camera := Navigated(camera, controller, dt);
      }
    }

    method SetScene(newScene: Scene)
      requires Valid()
      modifies this
      ensures Valid() && State() == Session.SetScene(old(State()), newScene)
    {
      scene := Some(newScene);
    }

    method SetCamera(requested: Camera, animationDuration: nat)
      requires Valid()
      modifies this
      ensures Valid() && State() == Session.SetCamera(old(State()), requested, animationDuration)
    {
      if animationDuration == 0 {
        UpdateCamera(requested);
      } else {
        nextCamera := Some(Session.Transition(animationDuration, animationDuration, camera, requested));
      }
    }

    method UpdateCamera(requested: Camera)
      requires Valid()
      modifies this
      ensures Valid() && State() == Session.UpdateCamera(old(State()), requested)
    {
      camera := requested;
      camera := Reprojected(camera, size);
      if hasPointCloud {
        sorts := sorts + [camera];
      }
    }
  }
}

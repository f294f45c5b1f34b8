/**
 * The fly-through camera's Euler angles and zoom, and the movement speed the
 * scroll wheel adjusts. Floats are modelled as reals; the direction vectors
 * (Front, Right, Up) are the trigonometric image of the Euler angles, so the
 * model records only which angles they were last computed from.
 */
module CameraModel {

  /** Default yaw, in degrees. */
  const YAW: real := -90.0
  /** Default pitch, in degrees. */
  const PITCH: real := 0.0
  /** Default movement speed. */
  const SPEED: real := 2.5
  /** Default mouse sensitivity. */
  const SENSITIVITY: real := 0.1
  /** Default (and widest) field of view, in degrees. */
  const ZOOM: real := 45.0

  /** The steepest pitch a constrained mouse movement leaves, in degrees. */
  const MaxPitch: real := 89.0
  /** The narrowest and widest field of view the scroll wheel can set. */
  const MinZoom: real := 1.0
  const MaxZoom: real := 45.0

  /** The speed the scroll callback starts from. */
  const InitialCameraSpeed: real := 8.0
  /** The speed a scroll that would make it negative sets instead. */
  const SpeedAfterUnderflow: real := 0.1

  /** The point of `[lo, hi]` closest to `x`. */
  function Clamp(x: real, lo: real, hi: real): (r: real)
    requires lo <= hi
    ensures lo <= r <= hi
    ensures lo <= x <= hi ==> r == x
  {
    if x < lo then lo else if hi < x then hi else x
  }

  /** No point of `[lo, hi]` is closer to `x` than `Clamp(x, lo, hi)`. */
  lemma ClampNearest(x: real, lo: real, hi: real, y: real)
    requires lo <= hi && lo <= y <= hi
    ensures (if Clamp(x, lo, hi) <= x then x - Clamp(x, lo, hi) else Clamp(x, lo, hi) - x) <=
            (if y <= x then x - y else y - x)
  {
  }

  /** Clamping keeps order. */
  lemma ClampMonotone(x: real, y: real, lo: real, hi: real)
    requires lo <= hi && x <= y
    ensures Clamp(x, lo, hi) <= Clamp(y, lo, hi)
  {
  }

  /** Clamping twice is clamping once. */
  lemma ClampIdempotent(x: real, lo: real, hi: real)
    requires lo <= hi
    ensures Clamp(Clamp(x, lo, hi), lo, hi) == Clamp(x, lo, hi)
  {
  }

  /** The Euler angles the direction vectors were last computed from. */
  datatype Orientation = Orientation(yaw: real, pitch: real)

  /** The camera's angles and options. */
  class Camera {
    var yaw: real
    var pitch: real
    var movementSpeed: real
    var mouseSensitivity: real
    var zoom: real
    /** What Front, Right and Up were last computed from. */
    var vectors: Orientation

    /** The direction vectors match the angles and the zoom is in range. */
    predicate Valid()
      reads this
    {
      vectors == Orientation(yaw, pitch) && MinZoom <= zoom <= MaxZoom
    }

    /** Recomputes Front, Right and Up from the current angles. */
    method UpdateCameraVectors()
      modifies this
      ensures vectors == Orientation(yaw, pitch)
      ensures yaw == old(yaw) && pitch == old(pitch) && zoom == old(zoom)
      ensures movementSpeed == old(movementSpeed) && mouseSensitivity == old(mouseSensitivity)
    {
      vectors := Orientation(yaw, pitch);
    }

    /** A camera with the given angles and the default options; `gCamera` uses the default angles. */
    constructor (yaw0: real, pitch0: real)
      ensures Valid()
      ensures yaw == yaw0 && pitch == pitch0
      ensures movementSpeed == SPEED && mouseSensitivity == SENSITIVITY && zoom == ZOOM
    {
      movementSpeed := SPEED;
      mouseSensitivity := SENSITIVITY;
      zoom := ZOOM;
      yaw := yaw0;
      pitch := pitch0;
      vectors := Orientation(yaw0, pitch0);
      new;
      UpdateCameraVectors();
    }

    /**
     * Turns the camera by the mouse offsets scaled by the sensitivity. Yaw is never
     * limited; with `constrainPitch` the pitch is held within 89 degrees of level.
     */
    method ProcessMouseMovement(xoffset: real, yoffset: real, constrainPitch: bool)
      requires Valid()
      modifies this
      ensures Valid()
      ensures yaw == old(yaw) + xoffset * mouseSensitivity
      ensures constrainPitch ==> -MaxPitch <= pitch <= MaxPitch
      ensures constrainPitch ==> pitch == Clamp(old(pitch) + yoffset * mouseSensitivity, -MaxPitch, MaxPitch)
      ensures !constrainPitch ==> pitch == old(pitch) + yoffset * mouseSensitivity
      ensures zoom == old(zoom) && movementSpeed == old(movementSpeed) && mouseSensitivity == old(mouseSensitivity)
    {
      var x := xoffset * mouseSensitivity;
      var y := yoffset * mouseSensitivity;
      yaw := yaw + x;
      pitch := pitch + y;
      if constrainPitch {
        if pitch > MaxPitch {
          pitch := MaxPitch;
        }
        if pitch < -MaxPitch {
          pitch := -MaxPitch;
        }
      }
      UpdateCameraVectors();
    }

    /** Zooms by the scroll offset, keeping the field of view between 1 and 45 degrees. */
    method ProcessMouseScroll(yoffset: real)
      requires Valid()
      modifies this
      ensures Valid()
      ensures MinZoom <= zoom <= MaxZoom
      ensures zoom == Clamp(old(zoom) - yoffset, MinZoom, MaxZoom)
      ensures yaw == old(yaw) && pitch == old(pitch) && vectors == old(vectors)
      ensures movementSpeed == old(movementSpeed) && mouseSensitivity == old(mouseSensitivity)
    {
      zoom := zoom - yoffset;
      if zoom < MinZoom {
        zoom := MinZoom;
      }
      if zoom > MaxZoom {
        zoom := MaxZoom;
      }
    }
  }

  /** Scrolling back by the same offset restores a zoom that neither scroll had to clamp. */
  lemma ScrollRoundTrip(zoom: real, yoffset: real)
    requires MinZoom <= zoom - yoffset <= MaxZoom && MinZoom <= zoom <= MaxZoom
    ensures Clamp(Clamp(zoom - yoffset, MinZoom, MaxZoom) + yoffset, MinZoom, MaxZoom) == zoom
  {
  }

  /**
   * The speed after one scroll: the offset is added, and a speed that would
   * become negative is raised to 0.1 while a speed of exactly 0 is kept.
   */
  function ScrolledSpeed(speed: real, yoffset: real): (r: real)
    ensures 0.0 <= r
    ensures 0.0 <= speed + yoffset ==> r == speed + yoffset
    ensures speed + yoffset < 0.0 ==> r == SpeedAfterUnderflow
  {
    if speed + yoffset < 0.0 then SpeedAfterUnderflow else speed + yoffset
  }

  /** The movement speed the keyboard uses, changed by the scroll wheel. */
  class Controls {
    var cameraSpeed: real

    constructor ()
      ensures cameraSpeed == InitialCameraSpeed
    {
      cameraSpeed := InitialCameraSpeed;
    }

    /** Adds the vertical scroll offset to the speed, never leaving it negative. */
    method MouseScrollCallback(yoffset: real)
      modifies this
      ensures cameraSpeed == ScrolledSpeed(old(cameraSpeed), yoffset)
      ensures 0.0 <= cameraSpeed
    {
      cameraSpeed := cameraSpeed + yoffset;
      if cameraSpeed < 0.0 {
        cameraSpeed := SpeedAfterUnderflow;
      }
    }
  }

  /** The speed after `k` notches down (offset -1 each) from `speed`. */
  function NotchesDown(speed: real, k: nat): real
  {
    if k == 0 then speed else ScrolledSpeed(NotchesDown(speed, k - 1), -1.0)
  }

  /** From the initial speed, each of the first eight notches down takes exactly one off. */
  lemma {:induction false} NotchesFromInitial(k: nat)
    requires k <= 8
    ensures NotchesDown(InitialCameraSpeed, k) == InitialCameraSpeed - k as real
  {
    if k > 0 {
      NotchesFromInitial(k - 1);
    }
  }

  /**
   * Eight notches down from the initial speed stop the camera: the speed reaches
   * exactly 0 and is kept, though one more notch raises it to 0.1.
   */
  lemma ScrollingCanStopCamera()
    ensures NotchesDown(InitialCameraSpeed, 8) == 0.0
    ensures NotchesDown(InitialCameraSpeed, 9) == SpeedAfterUnderflow
  {
    NotchesFromInitial(8);
  }

  /** A scroll up never slows the camera. */
  lemma ScrollUpNeverSlows(speed: real, yoffset: real)
    requires 0.0 <= speed && 0.0 <= yoffset
    ensures speed <= ScrolledSpeed(speed, yoffset)
  {
  }
}

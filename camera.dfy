/** The fly-through camera: position, Euler angles, movement options, and the
    clamps that keep zoom and (optionally) pitch in range. */
module Cameras {
  import opened Glm

  datatype CameraMovement = FORWARD | BACKWARD | LEFT | RIGHT | UP | DOWN

  const DefaultYaw: real := -90.0
  const DefaultPitch: real := 0.0
  const DefaultSpeed: real := 5.0
  const DefaultSensitivity: real := 0.1
  const DefaultZoom: real := 45.0
  const MinZoom: real := 1.0
  const MaxZoom: real := 90.0
  const PitchLimit: real := 89.0

  /** The camera's front, right and up vectors. */
  datatype Basis = Basis(front: Vec3, right: Vec3, up: Vec3)

  /** updateCameraVectors' trigonometry and normalisation, as a function of yaw,
      pitch and the world up vector; the model leaves it uninterpreted. */
  type Orientation = (real, real, Vec3) -> Basis

  /** std::clamp(v, lo, hi). */
  function Clamp(v: real, lo: real, hi: real): (r: real)
    requires lo <= hi
    ensures lo <= r <= hi
    ensures lo <= v <= hi <==> r == v
    ensures v < lo ==> r == lo
    ensures hi < v ==> r == hi
  {
    if v < lo then lo else if hi < v then hi else v
  }

  /** The movement opposite to `d`. */
  function Opposite(d: CameraMovement): CameraMovement {
    match d
    case FORWARD => BACKWARD
    case BACKWARD => FORWARD
    case LEFT => RIGHT
    case RIGHT => LEFT
    case UP => DOWN
    case DOWN => UP
  }

  /** How far one key press moves the camera: speed times the frame time. */
  function Velocity(speed: real, dt: real): real {
    speed * dt
  }

  /** The offset processKeyboard adds to the position for one key at a given
      velocity: along front, right or the world up vector. */
  function Displacement(d: CameraMovement, velocity: real, b: Basis, worldUp: Vec3): Vec3 {
    match d
    case FORWARD => Scale(b.front, velocity)
    case BACKWARD => Neg(Scale(b.front, velocity))
    case LEFT => Neg(Scale(b.right, velocity))
    case RIGHT => Scale(b.right, velocity)
    case UP => Scale(worldUp, velocity)
    case DOWN => Neg(Scale(worldUp, velocity))
  }

  /** Moving one way and then the opposite way, with the same velocity and
      orientation, returns to the starting position. */
  lemma MovementCancels(p: Vec3, d: CameraMovement, velocity: real, b: Basis, worldUp: Vec3)
    ensures Displacement(Opposite(d), velocity, b, worldUp) == Neg(Displacement(d, velocity, b, worldUp))
    ensures Add(Add(p, Displacement(d, velocity, b, worldUp)), Displacement(Opposite(d), velocity, b, worldUp)) == p
  {
  }

  /** UP and DOWN move along the world up vector only, by speed * dt. */
  lemma VerticalMovement(velocity: real, b: Basis, worldUp: Vec3)
    ensures Displacement(UP, velocity, b, worldUp) == Scale(worldUp, velocity)
    ensures Displacement(DOWN, velocity, b, worldUp) == Scale(worldUp, -velocity)
  {
  }

  class Camera {
    const orient: Orientation
    var position: Vec3
    var front: Vec3
    var up: Vec3
    var right: Vec3
    var worldUp: Vec3
    var yaw: real
    var pitch: real
    var movementSpeed: real
    var mouseSensitivity: real
    var zoom: real

    /** Zoom is always within [1, 90]. */
    ghost predicate Valid()
      reads this
    {
      MinZoom <= zoom <= MaxZoom
    }

    /** front, right and up are those of the current angles. */
    predicate VectorsCurrent()
      reads this
    {
      Basis(front, right, up) == orient(yaw, pitch, worldUp)
    }

    /** Camera(position, up, yaw, pitch), with default speed, sensitivity and zoom. */
    constructor (orient: Orientation, position: Vec3, up: Vec3, yaw: real, pitch: real)
      ensures Valid() && VectorsCurrent() && this.orient == orient
      ensures this.position == position && worldUp == up && this.yaw == yaw && this.pitch == pitch
      ensures movementSpeed == DefaultSpeed && mouseSensitivity == DefaultSensitivity && zoom == DefaultZoom
    {
      this.orient := orient;
      this.position := position;
      worldUp := up;
      this.yaw := yaw;
      this.pitch := pitch;
      front := Vec3(0.0, 0.0, -1.0);
      movementSpeed := DefaultSpeed;
      mouseSensitivity := DefaultSensitivity;
      zoom := DefaultZoom;
      new;
      UpdateCameraVectors();
    }

    /** updateCameraVectors: recomputes front, right and up; nothing else changes. */
    method UpdateCameraVectors()
      modifies this
      ensures VectorsCurrent()
      ensures position == old(position) && worldUp == old(worldUp) && yaw == old(yaw) && pitch == old(pitch)
      ensures movementSpeed == old(movementSpeed) && mouseSensitivity == old(mouseSensitivity) && zoom == old(zoom)
    {
      var b := orient(yaw, pitch, worldUp);
      front, right, up := b.front, b.right, b.up;
    }

    /** getViewMatrix: looks from the position along front. */
    function GetViewMatrix(): (m: Mat4)
      reads this
      ensures m.LookAt? && m.eye == position && Sub(m.center, m.eye) == front && m.up == up
    {
      LookAt(position, Add(position, front), up)
    }

    /** getProjectionMatrix: the field of view is the zoom angle, in degrees here. */
    function GetProjectionMatrix(aspectRatio: real): (m: Mat4)
      reads this
      ensures m.Perspective? && m.fovyDegrees == zoom && m.aspect == aspectRatio
      ensures m.near == 0.1 && m.far == 100.0
    {
      Perspective(zoom, aspectRatio, 0.1, 100.0)
    }

    /** processKeyboard: one step of speed * dt along the key's direction. */
    method ProcessKeyboard(direction: CameraMovement, deltaTime: real)
      modifies this
      ensures position == Add(old(position), Displacement(direction, Velocity(old(movementSpeed), deltaTime),
                                                          Basis(front, right, up), worldUp))
      ensures front == old(front) && right == old(right) && up == old(up) && worldUp == old(worldUp)
      ensures yaw == old(yaw) && pitch == old(pitch)
      ensures movementSpeed == old(movementSpeed) && mouseSensitivity == old(mouseSensitivity) && zoom == old(zoom)
    {
      var velocity := Velocity(movementSpeed, deltaTime);
      match direction {
        case FORWARD => position := Add(position, Scale(front, velocity));
        case BACKWARD => position := Sub(position, Scale(front, velocity));
        case LEFT => position := Sub(position, Scale(right, velocity));
        case RIGHT => position := Add(position, Scale(right, velocity));
        case UP => position := Add(position, Scale(worldUp, velocity));
        case DOWN => position := Sub(position, Scale(worldUp, velocity));
      }
    }

    /** processMouseMovement: the offsets, scaled by the sensitivity, are added
        to yaw and pitch; with constrainPitch the pitch is clamped to [-89, 89]. */
    method ProcessMouseMovement(xoffset: real, yoffset: real, constrainPitch: bool)
      requires Valid()
      modifies this
      ensures Valid() && VectorsCurrent()
      ensures yaw == old(yaw) + xoffset * mouseSensitivity
      ensures !constrainPitch ==> pitch == old(pitch) + yoffset * mouseSensitivity
      ensures constrainPitch ==> pitch == Clamp(old(pitch) + yoffset * mouseSensitivity, -PitchLimit, PitchLimit)
      ensures constrainPitch ==> -PitchLimit <= pitch <= PitchLimit
      ensures position == old(position) && worldUp == old(worldUp)
      ensures movementSpeed == old(movementSpeed) && mouseSensitivity == old(mouseSensitivity) && zoom == old(zoom)
    {
      var dx := xoffset * mouseSensitivity;
      var dy := yoffset * mouseSensitivity;
      yaw := yaw + dx;
      pitch := pitch + dy;
      if constrainPitch {
        pitch := Clamp(pitch, -PitchLimit, PitchLimit);
      }
      UpdateCameraVectors();
    }

    /** processMouseScroll: scrolling up zooms in; zoom stays within [1, 90]. */
    method ProcessMouseScroll(yoffset: real)
      requires Valid()
      modifies this
      ensures Valid() && zoom == Clamp(old(zoom) - yoffset, MinZoom, MaxZoom)
      ensures position == old(position) && front == old(front) && right == old(right) && up == old(up)
      ensures worldUp == old(worldUp) && yaw == old(yaw) && pitch == old(pitch)
      ensures movementSpeed == old(movementSpeed) && mouseSensitivity == old(mouseSensitivity)
    {
      zoom := zoom - yoffset;
      zoom := Clamp(zoom, MinZoom, MaxZoom);
    }

    method SetPosition(newPosition: Vec3)
      modifies this
      ensures position == newPosition
      ensures front == old(front) && right == old(right) && up == old(up) && worldUp == old(worldUp)
      ensures yaw == old(yaw) && pitch == old(pitch)
      ensures movementSpeed == old(movementSpeed) && mouseSensitivity == old(mouseSensitivity) && zoom == old(zoom)
    {
      position := newPosition;
    }

    method SetMovementSpeed(speed: real)
      modifies this
      ensures movementSpeed == speed
      ensures position == old(position) && front == old(front) && right == old(right) && up == old(up)
      ensures worldUp == old(worldUp) && yaw == old(yaw) && pitch == old(pitch)
      ensures mouseSensitivity == old(mouseSensitivity) && zoom == old(zoom)
    {
      movementSpeed := speed;
    }

    method SetMouseSensitivity(sensitivity: real)
      modifies this
      ensures mouseSensitivity == sensitivity
      ensures position == old(position) && front == old(front) && right == old(right) && up == old(up)
      ensures worldUp == old(worldUp) && yaw == old(yaw) && pitch == old(pitch)
      ensures movementSpeed == old(movementSpeed) && zoom == old(zoom)
    {
      mouseSensitivity := sensitivity;
    }

    /** setZoom: any requested zoom is clamped to [1, 90]. */
    method SetZoom(newZoom: real)
      modifies this
      ensures Valid() && zoom == Clamp(newZoom, MinZoom, MaxZoom)
      ensures position == old(position) && front == old(front) && right == old(right) && up == old(up)
      ensures worldUp == old(worldUp) && yaw == old(yaw) && pitch == old(pitch)
      ensures movementSpeed == old(movementSpeed) && mouseSensitivity == old(mouseSensitivity)
    {
      zoom := Clamp(newZoom, MinZoom, MaxZoom);
    }

    /** reset: back to the default pose and options; the world up vector is kept. */
    method Reset()
      modifies this
      ensures Valid() && VectorsCurrent()
      ensures position == Vec3(0.0, 0.0, 3.0) && yaw == DefaultYaw && pitch == DefaultPitch
      ensures zoom == DefaultZoom && movementSpeed == DefaultSpeed && mouseSensitivity == DefaultSensitivity
      ensures worldUp == old(worldUp)
    {
      position := Vec3(0.0, 0.0, 3.0);
      yaw := DefaultYaw;
      pitch := DefaultPitch;
      zoom := DefaultZoom;
      movementSpeed := DefaultSpeed;
      mouseSensitivity := DefaultSensitivity;
      UpdateCameraVectors();
    }
  }
}

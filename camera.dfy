/** The free-fly camera: a position that keyboard movement displaces along the
    viewing direction or the right vector, and a basis (right, up) derived from the
    viewing direction and the world's up vector by cross products. */
module Render {
  import opened Vectors

  /** Movement speed per unit of time. */
  const MoveSpeed: real := 0.1
  /** The world-up vector used when the constructor is given none. */
  const DefaultWorldUp: Vec3 := Vec3(0.0, 1.0, 0.0)
  /** The viewing direction every camera starts with: along the negative z axis. */
  const InitialDirection: Vec3 := Vec3(0.0, 0.0, -1.0)

  /** The four movement commands. */
  datatype Direction = Forward | Backward | Left | Right

  /** The right vector before normalisation: `direction × worldUp`. */
  function RightOf(direction: Vec3, worldUp: Vec3): Vec3 {
    Cross(direction, worldUp)
  }

  /** The up vector before normalisation: `right × direction`. */
  function UpOf(direction: Vec3, worldUp: Vec3): Vec3 {
    Cross(RightOf(direction, worldUp), direction)
  }

  /** The basis is orthogonal: right is perpendicular to the viewing direction and to
      world up, and up is perpendicular to right and to the viewing direction. */
  lemma BasisOrthogonal(direction: Vec3, worldUp: Vec3)
    ensures Dot(RightOf(direction, worldUp), direction) == 0.0
    ensures Dot(RightOf(direction, worldUp), worldUp) == 0.0
    ensures Dot(UpOf(direction, worldUp), RightOf(direction, worldUp)) == 0.0
    ensures Dot(UpOf(direction, worldUp), direction) == 0.0
  {
    CrossOrthogonal(direction, worldUp);
    CrossOrthogonal(RightOf(direction, worldUp), direction);
  }

  /** The basis degenerates exactly when the viewing direction is parallel to world up:
      right vanishes then, and the length of up is the length of right times the
      length of the viewing direction. */
  lemma BasisDegenerate(direction: Vec3, worldUp: Vec3)
    ensures RightOf(direction, worldUp) == Zero <==> Parallel(direction, worldUp)
    ensures Dot(UpOf(direction, worldUp), UpOf(direction, worldUp))
         == Dot(RightOf(direction, worldUp), RightOf(direction, worldUp)) * Dot(direction, direction)
  {
    var right := RightOf(direction, worldUp);
    CrossZeroIffParallel(direction, worldUp);
    Lagrange(right, direction);
    CrossOrthogonal(direction, worldUp);
  }

  /** With the default world up and the initial viewing direction, right is the x axis
      and up is the y axis; both already have unit length, so normalising them
      changes nothing. */
  lemma DefaultBasis()
    ensures RightOf(InitialDirection, DefaultWorldUp) == Vec3(1.0, 0.0, 0.0)
    ensures UpOf(InitialDirection, DefaultWorldUp) == Vec3(0.0, 1.0, 0.0)
    ensures Dot(Vec3(1.0, 0.0, 0.0), Vec3(1.0, 0.0, 0.0)) == 1.0
    ensures Dot(Vec3(0.0, 1.0, 0.0), Vec3(0.0, 1.0, 0.0)) == 1.0
  {
    assert InitialDirection == Vec3(0.0, 0.0, -1.0) && DefaultWorldUp == Vec3(0.0, 1.0, 0.0);
    assert RightOf(InitialDirection, DefaultWorldUp)
        == Vec3(0.0 * 0.0 - (-1.0) * 1.0, (-1.0) * 0.0 - 0.0 * 0.0, 0.0 * 1.0 - 0.0 * 0.0);
    assert UpOf(InitialDirection, DefaultWorldUp)
        == Vec3(0.0 * (-1.0) - 0.0 * 0.0, 0.0 * 0.0 - 1.0 * (-1.0), 1.0 * 0.0 - 0.0 * 0.0);
  }

  /** The default basis, for a direction and a world up that have the default values. */
  lemma DefaultBasisOf(direction: Vec3, worldUp: Vec3)
    requires direction == InitialDirection && worldUp == DefaultWorldUp
    ensures RightOf(direction, worldUp) == Vec3(1.0, 0.0, 0.0)
    ensures UpOf(direction, worldUp) == Vec3(0.0, 1.0, 0.0)
  {
    DefaultBasis();
  }

  /** A camera built with the default world up has the unit x axis as its right vector
      and the unit y axis as its up vector. */
  lemma DefaultCamera(c: Camera)
    requires c.Valid() && c.direction == InitialDirection && c.worldUp == DefaultWorldUp
    ensures c.right == Vec3(1.0, 0.0, 0.0) && c.up == Vec3(0.0, 1.0, 0.0)
  {
    DefaultBasisOf(c.direction, c.worldUp);
  }

  /** The position after one movement command, moving `velocity` units along the
      viewing direction (forward and backward) or the right vector (left and right). */
  function Moved(p: Vec3, d: Direction, direction: Vec3, right: Vec3, velocity: real): Vec3 {
    match d
    case Forward => Add(p, Scale(direction, velocity))
    case Backward => Sub(p, Scale(direction, velocity))
    case Left => Sub(p, Scale(right, velocity))
    case Right => Add(p, Scale(right, velocity))
  }

  /** The distance one movement call covers. */
  function Velocity(speed: real, deltaTime: real): real {
    speed * deltaTime
  }

  /** The axis a command moves along. */
  function Axis(d: Direction, direction: Vec3, right: Vec3): Vec3 {
    if d.Forward? || d.Backward? then direction else right
  }

  /** +1 for the commands that move along their axis, -1 for those that move against it. */
  function Sense(d: Direction): real {
    if d.Forward? || d.Right? then 1.0 else -1.0
  }

  /** With no elapsed time the position stays where it is. */
  lemma MovedZero(p: Vec3, d: Direction, direction: Vec3, right: Vec3, speed: real)
    ensures Moved(p, d, direction, right, Velocity(speed, 0.0)) == p
  {
  }

  /** Backward undoes forward and left undoes right, for the same step. */
  lemma MovedInverse(p: Vec3, direction: Vec3, right: Vec3, velocity: real)
    ensures Moved(Moved(p, Forward, direction, right, velocity), Backward, direction, right, velocity) == p
    ensures Moved(Moved(p, Backward, direction, right, velocity), Forward, direction, right, velocity) == p
    ensures Moved(Moved(p, Right, direction, right, velocity), Left, direction, right, velocity) == p
    ensures Moved(Moved(p, Left, direction, right, velocity), Right, direction, right, velocity) == p
  {
  }

  /** Two commands in one frame give the same position in either order. */
  lemma MovedCommutes(p: Vec3, d1: Direction, d2: Direction, direction: Vec3, right: Vec3, velocity: real)
    ensures Moved(Moved(p, d1, direction, right, velocity), d2, direction, right, velocity)
         == Moved(Moved(p, d2, direction, right, velocity), d1, direction, right, velocity)
  {
  }

  /** The position after a sequence of commands with the same basis and step. */
  function MoveAll(p: Vec3, ds: seq<Direction>, direction: Vec3, right: Vec3, velocity: real): Vec3
    decreases |ds|
  {
    if ds == [] then p else MoveAll(Moved(p, ds[0], direction, right, velocity), ds[1..], direction, right, velocity)
  }

  /** How many times `d` occurs in `ds`. */
  function Count(ds: seq<Direction>, d: Direction): nat
    decreases |ds|
  {
    if ds == [] then 0 else (if ds[0] == d then 1 else 0) + Count(ds[1..], d)
  }

  /** Steps along the viewing direction: forward commands minus backward commands. */
  function Ahead(ds: seq<Direction>): real {
    Count(ds, Forward) as real - Count(ds, Backward) as real
  }

  /** Steps along the right vector: right commands minus left commands. */
  function Aside(ds: seq<Direction>): real {
    Count(ds, Right) as real - Count(ds, Left) as real
  }

  /** `steps` steps of length `velocity` along `v`. */
  function Along(v: Vec3, steps: real, velocity: real): Vec3 {
    Scale(v, steps * velocity)
  }

  /** The net displacement of a sequence of commands. */
  function Net(ds: seq<Direction>, direction: Vec3, right: Vec3, velocity: real): Vec3 {
    Add(Along(direction, Ahead(ds), velocity), Along(right, Aside(ds), velocity))
  }

  /** A command displaces the position by exactly `Sense(d) * velocity` along its axis. */
  lemma MovedDisplacement(p: Vec3, d: Direction, direction: Vec3, right: Vec3, velocity: real)
    ensures Moved(p, d, direction, right, velocity) == Add(p, Along(Axis(d, direction, right), Sense(d), velocity))
  {
  }

  /** With the default basis every command moves the position by exactly `velocity`
      along one coordinate axis: forward and backward along z, left and right along x.
      The stored right vector is then the unit one that normalising would give. */
  lemma DefaultMoves(p: Vec3, velocity: real)
    ensures Moved(p, Forward, InitialDirection, RightOf(InitialDirection, DefaultWorldUp), velocity)
         == Vec3(p.x, p.y, p.z - velocity)
    ensures Moved(p, Backward, InitialDirection, RightOf(InitialDirection, DefaultWorldUp), velocity)
         == Vec3(p.x, p.y, p.z + velocity)
    ensures Moved(p, Left, InitialDirection, RightOf(InitialDirection, DefaultWorldUp), velocity)
         == Vec3(p.x - velocity, p.y, p.z)
    ensures Moved(p, Right, InitialDirection, RightOf(InitialDirection, DefaultWorldUp), velocity)
         == Vec3(p.x + velocity, p.y, p.z)
  {
    var right := RightOf(InitialDirection, DefaultWorldUp);
    assert right == Vec3(1.0, 0.0, 0.0) by {
      DefaultBasis();
    }
    UnitMoves(p, velocity);
  }

  lemma UnitMoves(p: Vec3, velocity: real)
    ensures Moved(p, Forward, InitialDirection, Vec3(1.0, 0.0, 0.0), velocity) == Vec3(p.x, p.y, p.z - velocity)
    ensures Moved(p, Backward, InitialDirection, Vec3(1.0, 0.0, 0.0), velocity) == Vec3(p.x, p.y, p.z + velocity)
    ensures Moved(p, Left, InitialDirection, Vec3(1.0, 0.0, 0.0), velocity) == Vec3(p.x - velocity, p.y, p.z)
    ensures Moved(p, Right, InitialDirection, Vec3(1.0, 0.0, 0.0), velocity) == Vec3(p.x + velocity, p.y, p.z)
  {
  }

  /** Steps along one axis add up. */
  lemma AlongSplit(v: Vec3, n: real, e: real, k: real)
    ensures Along(v, n + e, k) == Add(Along(v, n, k), Along(v, e, k))
  {
    assert (n + e) * k == n * k + e * k;
    ScaleDistributes(v, n * k, e * k);
  }

  /** One command adds its sense to the step count of its own axis only. */
  lemma CountsFirst(ds: seq<Direction>)
    requires ds != []
    ensures ds[0].Forward? || ds[0].Backward? ==>
              Ahead(ds) == Ahead(ds[1..]) + Sense(ds[0]) && Aside(ds) == Aside(ds[1..])
    ensures ds[0].Left? || ds[0].Right? ==>
              Aside(ds) == Aside(ds[1..]) + Sense(ds[0]) && Ahead(ds) == Ahead(ds[1..])
  {
  }

  /** Taking one command off the front of a sequence takes its own step off the net. */
  lemma NetFirst(ds: seq<Direction>, direction: Vec3, right: Vec3, velocity: real)
    requires ds != []
    ensures Net(ds, direction, right, velocity)
         == Add(Along(Axis(ds[0], direction, right), Sense(ds[0]), velocity), Net(ds[1..], direction, right, velocity))
  {
    var n, m, e := Ahead(ds[1..]), Aside(ds[1..]), Sense(ds[0]);
    var a, b := Along(direction, n, velocity), Along(right, m, velocity);
    CountsFirst(ds);
    if ds[0].Forward? || ds[0].Backward? {
      AlongSplit(direction, n, e, velocity);
      AddSwap(a, Along(direction, e, velocity), b);
    } else {
      AlongSplit(right, m, e, velocity);
      AddRotate(a, b, Along(right, e, velocity));
    }
  }

  /** No commands, no displacement. */
  lemma NetEmpty(direction: Vec3, right: Vec3, velocity: real)
    ensures Net([], direction, right, velocity) == Zero
  {
    assert Ahead([]) == 0.0 && Aside([]) == 0.0;
  }

  /** The net movement of a sequence of commands: the forward count minus the backward
      count steps along the viewing direction, the right count minus the left count
      steps along the right vector, whatever the order. */
  lemma {:induction false} MoveAllNet(p: Vec3, ds: seq<Direction>, direction: Vec3, right: Vec3, velocity: real)
    ensures MoveAll(p, ds, direction, right, velocity) == Add(p, Net(ds, direction, right, velocity))
    decreases |ds|
  {
    if ds == [] {
      NetEmpty(direction, right, velocity);
    } else {
      var step := Along(Axis(ds[0], direction, right), Sense(ds[0]), velocity);
      var q := Moved(p, ds[0], direction, right, velocity);
      MovedDisplacement(p, ds[0], direction, right, velocity);
      calc {
        MoveAll(p, ds, direction, right, velocity);
        MoveAll(q, ds[1..], direction, right, velocity);
        { MoveAllNet(q, ds[1..], direction, right, velocity); }
        Add(Add(p, step), Net(ds[1..], direction, right, velocity));
        { AddAssociative(p, step, Net(ds[1..], direction, right, velocity)); }
        Add(p, Add(step, Net(ds[1..], direction, right, velocity)));
        { NetFirst(ds, direction, right, velocity); }
        Add(p, Net(ds, direction, right, velocity));
      }
    }
  }

  /** The arguments the view matrix is built from by `glm::lookAt`: the eye, the point
      looked at and the up vector. */
  datatype LookAt = LookAt(eye: Vec3, center: Vec3, up: Vec3)

  class Camera {
    var position: Vec3
    var direction: Vec3
    var up: Vec3
    var right: Vec3
    var worldUp: Vec3
    var movementSpeed: real

    /** Right and up are the ones derived from the viewing direction and world up. */
    ghost predicate Valid()
      reads this
    {
      right == RightOf(direction, worldUp) && up == UpOf(direction, worldUp)
    }

    constructor (position: Vec3, worldUp: Vec3 := DefaultWorldUp)
      ensures Valid()
      ensures this.position == position && this.worldUp == worldUp
      ensures direction == InitialDirection && movementSpeed == MoveSpeed
    {
      this.position := position;
      this.worldUp := worldUp;
      direction := InitialDirection;
      movementSpeed := MoveSpeed;
      new;
      UpdateCameraVectors();
    }

    /** The view transform looks from the position one unit along the viewing
        direction, with up as the vertical reference. */
    function ViewMatrix(): (v: LookAt)
      reads this
      ensures v.eye == position && v.up == up
      ensures Sub(v.center, v.eye) == direction
    {
      LookAt(position, Add(position, direction), up)
    }

    /** Moves the position by `movementSpeed * deltaTime`; nothing else changes. */
    method ProcessKeyboard(d: Direction, deltaTime: real)
      modifies `position
      ensures position == Moved(old(position), d, direction, right, Velocity(movementSpeed, deltaTime))
      ensures direction == old(direction) && up == old(up) && right == old(right)
      ensures worldUp == old(worldUp) && movementSpeed == old(movementSpeed)
    {
      var velocity := Velocity(movementSpeed, deltaTime);
      if d == Forward {
        position := Add(position, Scale(direction, velocity));
      }
      if d == Backward {
        position := Sub(position, Scale(direction, velocity));
      }
      if d == Left {
        position := Sub(position, Scale(right, velocity));
      }
      if d == Right {
        position := Add(position, Scale(right, velocity));
      }
    }

    method UpdateCameraVectors()
      modifies `right, `up
      ensures Valid()
    {
      right := Cross(direction, worldUp);
      up := Cross(right, direction);
    }
  }
}

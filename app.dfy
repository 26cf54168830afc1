/** The program's global state and the rules by which the window's events update it:
    key presses toggle flags, pointer motion produces look offsets, each frame
    advances the clocks, and the held movement keys move the camera. */
module Application {
  import opened Vectors
  import opened Render

  const ScreenWidth: int := 1200
  const ScreenHeight: int := 900

  /** GLFW's key codes and action codes, as the window system delivers them. */
  const KeySpace: int := 32
  const KeyA: int := 65
  const KeyD: int := 68
  const KeyE: int := 69
  const KeyS: int := 83
  const KeyW: int := 87
  const KeyEscape: int := 256
  const Press: int := 1

  /** The single-precision value of pi, written out exactly; doubling it is exact. */
  const Pi: real := 3.1415927410125732421875
  const TwoPi: real := 2.0 * Pi

  // ---------------------------------------------------------------------------
  // Keyboard toggles

  /** The three flags the key handler flips. */
  datatype Flags = Flags(wireframe: bool, lightMove: bool, paused: bool)

  const InitialFlags: Flags := Flags(false, true, false)

  /** The light moves exactly when the animation is running. */
  predicate LightFollowsAnimation(f: Flags) {
    f.lightMove == !f.paused
  }

  /** What one key event does to the flags: a press of E flips the wireframe mode, a
      press of Space flips both light movement and the animation pause; every other
      key and every non-press action leave the flags alone. */
  function KeyStep(f: Flags, key: int, action: int): (r: Flags)
    ensures key == KeyE && action == Press ==>
              r.wireframe == !f.wireframe && r.lightMove == f.lightMove && r.paused == f.paused
    ensures key == KeySpace && action == Press ==>
              r.wireframe == f.wireframe && r.lightMove == !f.lightMove && r.paused == !f.paused
    ensures action != Press || (key != KeyE && key != KeySpace) ==> r == f
    ensures LightFollowsAnimation(r) <==> LightFollowsAnimation(f)
  {
    var f1 := if key == KeyE && action == Press then f.(wireframe := !f.wireframe) else f;
    if key == KeySpace && action == Press then
      f1.(lightMove := !f1.lightMove, paused := !f1.paused)
    else
      f1
  }

  datatype KeyEvent = KeyEvent(key: int, action: int)

  function KeyRun(f: Flags, events: seq<KeyEvent>): Flags
    decreases |events|
  {
    if events == [] then f else KeyRun(KeyStep(f, events[0].key, events[0].action), events[1..])
  }

  /** How many of `events` are presses of `key`. */
  function Presses(events: seq<KeyEvent>, key: int): nat
    decreases |events|
  {
    if events == [] then 0
    else (if events[0].key == key && events[0].action == Press then 1 else 0) + Presses(events[1..], key)
  }

  function Odd(n: nat): bool {
    n % 2 == 1
  }

  /** After any sequence of key events, the wireframe flag has flipped once per press of E,
      and the light and pause flags have flipped once per press of Space. */
  lemma {:induction false} KeyRunFlips(f: Flags, events: seq<KeyEvent>)
    ensures KeyRun(f, events).wireframe == (f.wireframe != Odd(Presses(events, KeyE)))
    ensures KeyRun(f, events).lightMove == (f.lightMove != Odd(Presses(events, KeySpace)))
    ensures KeyRun(f, events).paused == (f.paused != Odd(Presses(events, KeySpace)))
    decreases |events|
  {
    if events != [] {
      KeyRunFlips(KeyStep(f, events[0].key, events[0].action), events[1..]);
    }
  }

  /** From the initial flags, the light moves exactly when the animation runs, after
      any sequence of key events. */
  lemma {:induction false} KeyRunKeepsLightInvariant(events: seq<KeyEvent>)
    ensures LightFollowsAnimation(KeyRun(InitialFlags, events))
  {
    KeyRunFlips(InitialFlags, events);
  }

  // ---------------------------------------------------------------------------
  // Per-frame clocks

  datatype Clock = Clock(lastTime: real, deltaTime: real, animationTime: real)

  const InitialClock: Clock := Clock(0.0, 0.0, 0.0)

  /** The animation time after a frame of `deltaTime`: frozen while paused, otherwise
      advanced and wrapped back by 2π once it has passed 2π. */
  function AnimationStep(t: real, deltaTime: real, paused: bool): (r: real)
    ensures paused ==> r == t
    ensures !paused ==> r == t + deltaTime || r == t + deltaTime - TwoPi
    ensures !paused ==> (r == t + deltaTime - TwoPi <==> t + deltaTime > TwoPi)
    ensures 0.0 <= t <= TwoPi && 0.0 <= deltaTime <= TwoPi ==> 0.0 <= r <= TwoPi
  {
    if paused then t
    else
      var advanced := t + deltaTime;
      if advanced > TwoPi then advanced - TwoPi else advanced
  }

  /** One frame's time bookkeeping, at the current time `now`. */
  function Tick(c: Clock, now: real, paused: bool): (r: Clock)
    ensures r.lastTime == now
    ensures c.lastTime + r.deltaTime == now
    ensures r.animationTime == AnimationStep(c.animationTime, r.deltaTime, paused)
  {
    var deltaTime := now - c.lastTime;
    Clock(now, deltaTime, AnimationStep(c.animationTime, deltaTime, paused))
  }

  function ClockRun(c: Clock, times: seq<real>, paused: bool): Clock
    decreases |times|
  {
    if times == [] then c else ClockRun(Tick(c, times[0], paused), times[1..], paused)
  }

  /** The frame times do not go backwards and no two frames are more than 2π apart. */
  predicate Steady(last: real, times: seq<real>)
    decreases |times|
  {
    times == [] || (last <= times[0] <= last + TwoPi && Steady(times[0], times[1..]))
  }

  /** Over steady frames the animation time stays within [0, 2π], and the last frame
      time is remembered. */
  lemma {:induction false} ClockRunInRange(c: Clock, times: seq<real>, paused: bool)
    requires 0.0 <= c.animationTime <= TwoPi
    requires Steady(c.lastTime, times)
    ensures 0.0 <= ClockRun(c, times, paused).animationTime <= TwoPi
    ensures times != [] ==> ClockRun(c, times, paused).lastTime == times[|times| - 1]
    decreases |times|
  {
    if times != [] {
      ClockRunInRange(Tick(c, times[0], paused), times[1..], paused);
    }
  }

  /** While paused, no number of frames changes the animation time. */
  lemma {:induction false} ClockRunPaused(c: Clock, times: seq<real>)
    ensures ClockRun(c, times, true).animationTime == c.animationTime
    decreases |times|
  {
    if times != [] {
      ClockRunPaused(Tick(c, times[0], true), times[1..]);
    }
  }

  // ---------------------------------------------------------------------------
  // Pointer motion

  datatype Mouse = Mouse(first: bool, lastX: real, lastY: real)
  datatype Offset = Offset(dx: real, dy: real)
  datatype MouseResult = MouseResult(mouse: Mouse, offset: Offset)
  datatype Point = Point(x: real, y: real)

  /** The pointer starts at the far corner of the screen, before any event. */
  const InitialMouse: Mouse := Mouse(true, ScreenWidth as real, ScreenHeight as real)

  /** One pointer event at `(x, y)`: the offsets from the previous position (none on
      the very first event), with the vertical offset inverted so that moving up is
      positive; the new position is remembered. */
  function MouseStep(m: Mouse, x: real, y: real): (r: MouseResult)
    ensures r.mouse == Mouse(false, x, y)
    ensures m.first ==> r.offset == Offset(0.0, 0.0)
    ensures !m.first ==> m.lastX + r.offset.dx == x && m.lastY - r.offset.dy == y
  {
    var seen := if m.first then Mouse(false, x, y) else m;
    MouseResult(Mouse(seen.first, x, y), Offset(x - seen.lastX, seen.lastY - y))
  }

  /** The sum of the offsets that a sequence of pointer events produces. */
  function MouseTotal(m: Mouse, points: seq<Point>): Offset
    decreases |points|
  {
    if points == [] then Offset(0.0, 0.0)
    else
      var r := MouseStep(m, points[0].x, points[0].y);
      var rest := MouseTotal(r.mouse, points[1..]);
      Offset(r.offset.dx + rest.dx, r.offset.dy + rest.dy)
  }

  /** The offsets add up to the whole movement: from the remembered position (or, on a
      fresh start, from the first event's) to the last event's, with y inverted. */
  lemma {:induction false} MouseTelescopes(m: Mouse, points: seq<Point>)
    requires points != []
    ensures var start := if m.first then points[0] else Point(m.lastX, m.lastY);
            var last := points[|points| - 1];
            MouseTotal(m, points) == Offset(last.x - start.x, start.y - last.y)
    decreases |points|
  {
    if |points| > 1 {
      MouseTelescopes(MouseStep(m, points[0].x, points[0].y).mouse, points[1..]);
    }
  }

  // ---------------------------------------------------------------------------
  // Movement keys

  /** The movement commands `processInput` issues for the keys held down, in its order
      W, S, A, D. */
  function InputMoves(pressed: set<int>): (r: seq<Direction>)
    ensures |r| <= 4
    ensures Forward in r <==> KeyW in pressed
    ensures Backward in r <==> KeyS in pressed
    ensures Left in r <==> KeyA in pressed
    ensures Right in r <==> KeyD in pressed
  {
    (if KeyW in pressed then [Forward] else [])
    + (if KeyS in pressed then [Backward] else [])
    + (if KeyA in pressed then [Left] else [])
    + (if KeyD in pressed then [Right] else [])
  }

  /** Moving by two sequences one after the other is moving by their concatenation. */
  lemma {:induction false} MoveAllAppend(p: Vec3, xs: seq<Direction>, ys: seq<Direction>, direction: Vec3, right: Vec3, velocity: real)
    ensures MoveAll(p, xs + ys, direction, right, velocity)
         == MoveAll(MoveAll(p, xs, direction, right, velocity), ys, direction, right, velocity)
    decreases |xs|
  {
    if xs == [] {
      assert [] + ys == ys;
    } else {
      assert (xs + ys)[1..] == xs[1..] + ys;
      MoveAllAppend(Moved(p, xs[0], direction, right, velocity), xs[1..], ys, direction, right, velocity);
    }
  }

  /** One command if its key is held, none otherwise. */
  function MoveIf(p: Vec3, held: bool, d: Direction, direction: Vec3, right: Vec3, velocity: real): Vec3 {
    if held then Moved(p, d, direction, right, velocity) else p
  }

  /** The commands for the held keys move the camera key by key, in the order W, S, A, D. */
  lemma InputMovesInOrder(p: Vec3, pressed: set<int>, direction: Vec3, right: Vec3, velocity: real)
    ensures MoveAll(p, InputMoves(pressed), direction, right, velocity)
         == MoveIf(MoveIf(MoveIf(MoveIf(p, KeyW in pressed, Forward, direction, right, velocity),
                                 KeyS in pressed, Backward, direction, right, velocity),
                          KeyA in pressed, Left, direction, right, velocity),
                   KeyD in pressed, Right, direction, right, velocity)
  {
    var w := if KeyW in pressed then [Forward] else [];
    var s := if KeyS in pressed then [Backward] else [];
    var a := if KeyA in pressed then [Left] else [];
    var d := if KeyD in pressed then [Right] else [];
    forall e: Direction, q: Vec3
      ensures MoveAll(q, [e], direction, right, velocity) == Moved(q, e, direction, right, velocity)
    {
      assert [e][1..] == [];
    }
    MoveAllAppend(p, w + s + a, d, direction, right, velocity);
    MoveAllAppend(p, w + s, a, direction, right, velocity);
    MoveAllAppend(p, w, s, direction, right, velocity);
  }

  /** Holding W and S together, or A and D together, cancels out. */
  lemma OpposedKeysCancel(p: Vec3, pressed: set<int>, direction: Vec3, right: Vec3, velocity: real)
    requires KeyW in pressed <==> KeyS in pressed
    requires KeyA in pressed <==> KeyD in pressed
    ensures MoveAll(p, InputMoves(pressed), direction, right, velocity) == p
  {
    var ds := InputMoves(pressed);
    MoveAllNet(p, ds, direction, right, velocity);
    assert Count(ds, Forward) == Count(ds, Backward) && Count(ds, Left) == Count(ds, Right) by {
      CountInputMoves(pressed);
    }
  }

  /** Each held movement key issues its command exactly once. */
  lemma CountInputMoves(pressed: set<int>)
    ensures Count(InputMoves(pressed), Forward) == (if KeyW in pressed then 1 else 0)
    ensures Count(InputMoves(pressed), Backward) == (if KeyS in pressed then 1 else 0)
    ensures Count(InputMoves(pressed), Left) == (if KeyA in pressed then 1 else 0)
    ensures Count(InputMoves(pressed), Right) == (if KeyD in pressed then 1 else 0)
  {
    var w := if KeyW in pressed then [Forward] else [];
    var s := if KeyS in pressed then [Backward] else [];
    var a := if KeyA in pressed then [Left] else [];
    var d := if KeyD in pressed then [Right] else [];
    CountSingleton(Forward);
    CountSingleton(Backward);
    CountSingleton(Left);
    CountSingleton(Right);
    forall e: Direction
      ensures Count(InputMoves(pressed), e) == Count(w, e) + Count(s, e) + Count(a, e) + Count(d, e)
    {
      CountAppend(w + s + a, d, e);
      CountAppend(w + s, a, e);
      CountAppend(w, s, e);
    }
  }

  /** The signed number of steps that a pair of opposed keys gives: +1 when only the
      first is held, -1 when only the second is, 0 when both or neither are. */
  function Sign(plus: bool, minus: bool): real {
    if plus == minus then 0.0 else if plus then 1.0 else -1.0
  }

  /** The distance those steps cover at `velocity` per step. */
  function Step(plus: bool, minus: bool, velocity: real): real {
    if plus == minus then 0.0 else if plus then velocity else -velocity
  }

  lemma AlongSign(v: Vec3, plus: bool, minus: bool, velocity: real)
    ensures Along(v, Sign(plus, minus), velocity) == Scale(v, Step(plus, minus, velocity))
  {
    if plus == minus {
      assert Along(v, Sign(plus, minus), velocity) == Along(v, 0.0, velocity);
    } else if plus {
      assert Along(v, Sign(plus, minus), velocity) == Along(v, 1.0, velocity);
    } else {
      assert Along(v, Sign(plus, minus), velocity) == Along(v, -1.0, velocity);
    }
  }

  /** For the program's camera, which keeps its initial direction and the default world
      up, the held keys move it by exactly one step along a coordinate axis each: D and
      A along x, W and S along z (W towards -z). Opposed keys cancel. */
  lemma DefaultInputDisplacement(p: Vec3, pressed: set<int>, velocity: real)
    ensures MoveAll(p, InputMoves(pressed), InitialDirection, RightOf(InitialDirection, DefaultWorldUp), velocity)
         == Vec3(p.x + Step(KeyD in pressed, KeyA in pressed, velocity),
                 p.y,
                 p.z - Step(KeyW in pressed, KeyS in pressed, velocity))
  {
    var right := RightOf(InitialDirection, DefaultWorldUp);
    var ds := InputMoves(pressed);
    var ahead := Step(KeyW in pressed, KeyS in pressed, velocity);
    var aside := Step(KeyD in pressed, KeyA in pressed, velocity);
    MoveAllNet(p, ds, InitialDirection, right, velocity);
    assert Net(ds, InitialDirection, right, velocity) == Add(Scale(InitialDirection, ahead), Scale(right, aside)) by {
      InputNet(pressed, InitialDirection, right, velocity);
    }
    assert right == Vec3(1.0, 0.0, 0.0) by {
      DefaultBasis();
    }
    AxisSum(p, ahead, aside);
  }

  /** The net movement of the held keys, per axis. */
  lemma InputNet(pressed: set<int>, direction: Vec3, right: Vec3, velocity: real)
    ensures Net(InputMoves(pressed), direction, right, velocity)
         == Add(Scale(direction, Step(KeyW in pressed, KeyS in pressed, velocity)),
                Scale(right, Step(KeyD in pressed, KeyA in pressed, velocity)))
  {
    var ds := InputMoves(pressed);
    assert Ahead(ds) == Sign(KeyW in pressed, KeyS in pressed) && Aside(ds) == Sign(KeyD in pressed, KeyA in pressed) by {
      CountInputMoves(pressed);
    }
    AlongSign(direction, KeyW in pressed, KeyS in pressed, velocity);
    AlongSign(right, KeyD in pressed, KeyA in pressed, velocity);
  }

  lemma AxisSum(p: Vec3, ahead: real, aside: real)
    ensures Add(p, Add(Scale(InitialDirection, ahead), Scale(Vec3(1.0, 0.0, 0.0), aside)))
         == Vec3(p.x + aside, p.y, p.z - ahead)
  {
  }

  lemma CountSingleton(d: Direction)
    ensures forall e :: Count([d], e) == if d == e then 1 else 0
  {
    assert [d][1..] == [];
  }

  lemma {:induction false} CountAppend(xs: seq<Direction>, ys: seq<Direction>, e: Direction)
    ensures Count(xs + ys, e) == Count(xs, e) + Count(ys, e)
    decreases |xs|
  {
    if xs == [] {
      assert [] + ys == ys;
    } else {
      assert (xs + ys)[1..] == xs[1..] + ys;
      CountAppend(xs[1..], ys, e);
    }
  }

  // ---------------------------------------------------------------------------
  // The globals

  /** The program's global variables, updated in place by the event handlers. */
  class Globals {
    const camera: Camera
    var deltaTime: real
    var lastTime: real
    var animationTime: real
    var animationPaused: bool
    var lastLightPos: Vec3
    var firstMouse: bool
    var mouseLastX: real
    var mouseLastY: real
    var enableWireframe: bool
    var enableLightMove: bool

    function FlagState(): Flags
      reads this
    {
      Flags(enableWireframe, enableLightMove, animationPaused)
    }

    function ClockState(): Clock
      reads this
    {
      Clock(lastTime, deltaTime, animationTime)
    }

    function MouseState(): Mouse
      reads this
    {
      Mouse(firstMouse, mouseLastX, mouseLastY)
    }

    ghost predicate Valid()
      reads this, camera
    {
      camera.Valid() && LightFollowsAnimation(FlagState())
    }

    constructor ()
      ensures Valid() && fresh(camera)
      ensures camera.position == Vec3(0.0, 0.0, 3.0) && camera.worldUp == DefaultWorldUp
      ensures camera.direction == InitialDirection && camera.movementSpeed == MoveSpeed
      ensures ClockState() == InitialClock
      ensures FlagState() == InitialFlags
      ensures MouseState() == InitialMouse
      ensures lastLightPos == Vec3(1.0, 0.4, 1.5)
    {
      camera := new Camera(Vec3(0.0, 0.0, 3.0));
      deltaTime := 0.0;
      lastTime := 0.0;
      animationTime := 0.0;
      animationPaused := false;
      lastLightPos := Vec3(1.0, 0.4, 1.5);
      firstMouse := true;
      mouseLastX := ScreenWidth as real;
      mouseLastY := ScreenHeight as real;
      enableWireframe := false;
      enableLightMove := true;
    }

    /** The key handler. */
    method KeyCallback(key: int, action: int)
      requires Valid()
      modifies `enableWireframe, `enableLightMove, `animationPaused
      ensures Valid()
      ensures FlagState() == KeyStep(old(FlagState()), key, action)
    {
      if key == KeyE && action == Press {
        enableWireframe := !enableWireframe;
      }
      if key == KeySpace && action == Press {
        enableLightMove := !enableLightMove;
        animationPaused := !animationPaused;
      }
    }

    /** The pointer handler; it returns the look offsets it hands on to the camera. */
    method MouseCallback(xPos: real, yPos: real) returns (xOffset: real, yOffset: real)
      modifies `firstMouse, `mouseLastX, `mouseLastY
      ensures MouseState() == MouseStep(old(MouseState()), xPos, yPos).mouse
      ensures Offset(xOffset, yOffset) == MouseStep(old(MouseState()), xPos, yPos).offset
    {
      if firstMouse {
        mouseLastX := xPos;
        mouseLastY := yPos;
        firstMouse := false;
      }
      xOffset := xPos - mouseLastX;
      yOffset := mouseLastY - yPos;
      mouseLastX := xPos;
      mouseLastY := yPos;
    }

    /** The per-frame time logic, given the window system's current time. */
    method AdvanceClock(currentTime: real)
      modifies `deltaTime, `lastTime, `animationTime
      ensures ClockState() == Tick(old(ClockState()), currentTime, animationPaused)
    {
      deltaTime := currentTime - lastTime;
      lastTime := currentTime;
      if !animationPaused {
        animationTime := animationTime + deltaTime;
        if animationTime > TwoPi {
          animationTime := animationTime - TwoPi;
        }
      }
    }

    /** Polls the keys held down (`pressed`) once: Escape asks the window to close, and
        each of W, S, A, D moves the camera by this frame's delta time. */
    method ProcessInput(pressed: set<int>) returns (shouldClose: bool)
      requires Valid()
      modifies camera`position
      ensures Valid()
      ensures shouldClose == (KeyEscape in pressed)
      ensures camera.position
           == MoveAll(old(camera.position), InputMoves(pressed), camera.direction, camera.right,
                      Velocity(camera.movementSpeed, deltaTime))
      ensures camera.direction == old(camera.direction) && camera.right == old(camera.right)
      ensures camera.up == old(camera.up) && camera.worldUp == old(camera.worldUp)
      ensures camera.movementSpeed == old(camera.movementSpeed)
    {
      shouldClose := KeyEscape in pressed;
      ghost var start, velocity := camera.position, Velocity(camera.movementSpeed, deltaTime);
      ghost var direction, right := camera.direction, camera.right;
      if KeyW in pressed {
        camera.ProcessKeyboard(Forward, deltaTime);
      }
      ghost var afterW := MoveIf(start, KeyW in pressed, Forward, direction, right, velocity);
      assert camera.position == afterW;
      if KeyS in pressed {
        camera.ProcessKeyboard(Backward, deltaTime);
      }
      ghost var afterS := MoveIf(afterW, KeyS in pressed, Backward, direction, right, velocity);
      assert camera.position == afterS;
      if KeyA in pressed {
        camera.ProcessKeyboard(Left, deltaTime);
      }
      ghost var afterA := MoveIf(afterS, KeyA in pressed, Left, direction, right, velocity);
      assert camera.position == afterA;
      if KeyD in pressed {
        camera.ProcessKeyboard(Right, deltaTime);
      }
      assert camera.position == MoveIf(afterA, KeyD in pressed, Right, direction, right, velocity);
      InputMovesInOrder(start, pressed, direction, right, velocity);
    }

    /** The input half of one pass of the render loop: the time logic first, then the
        key poll, so the camera moves by the speed times the time since the last frame. */
    method Frame(currentTime: real, pressed: set<int>) returns (shouldClose: bool)
      requires Valid()
      modifies `deltaTime, `lastTime, `animationTime, camera`position
      ensures Valid()
      ensures ClockState() == Tick(old(ClockState()), currentTime, animationPaused)
      ensures shouldClose == (KeyEscape in pressed)
      ensures camera.position
           == MoveAll(old(camera.position), InputMoves(pressed), camera.direction, camera.right,
                      Velocity(camera.movementSpeed, currentTime - old(lastTime)))
    {
      AdvanceClock(currentTime);
      shouldClose := ProcessInput(pressed);
    }
  }
}
